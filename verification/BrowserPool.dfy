/**
 * One browser pool engine (packages/browser-pool/src/index.js, createPoolEngine).
 *
 * As in TenantQuota, an Event is one stretch of code between two awaits; browser launches,
 * context creation and closing settle at any later moment, in any order. Engine shutdown is
 * not part of this model.
 */
module BrowserPool {
  import opened Basics

  type SlotId = nat
  type CallId = nat
  type LeaseId = string

  datatype Config = Config(maxBrowsers: nat, maxContextsPerBrowser: nat, recycleUses: nat)

  datatype Slot = Slot(activeContexts: int, createdContexts: int, lastUsedAt: int, closing: bool)

  datatype Memory = Plenty | SoftLimit | HardLimit

  datatype Kind = InProcess | Remote

  /** Where an acquireContext or leaseRemoteBrowser call is suspended. */
  datatype Phase =
    | Waiting                // in the waiter list
    | Woken                  // signalled, about to rerun the loop
    | LaunchSkipped          // the soft memory limit refused a launch; about to queue up
    | Launching              // counted in launchInFlight
    | Picked(slot: SlotId)   // pickOrCreateSlot returned, the caller has not resumed
    | Opening(slot: SlotId)  // counted on the slot, awaiting newContext
    | Held(slot: SlotId)     // counted on the slot, the handle belongs to the caller
    | Closing(slot: SlotId)  // counted on the slot, awaiting context.close

  datatype Call = Call(kind: Kind, phase: Phase)

  datatype State = State(
    browsers: seq<SlotId>,
    slots: map<SlotId, Slot>,
    waiters: seq<CallId>,
    leases: map<LeaseId, SlotId>,
    launchInFlight: int,
    nextId: SlotId,
    calls: map<CallId, Call>)

  const INITIAL := State([], map[], [], map[], 0, 1, map[])

  datatype Event =
    | Start(id: CallId, kind: Kind, memory: Memory)
    | Resume(id: CallId, memory: Memory)
    | QueueAfterSkip(id: CallId)
    | LaunchOk(id: CallId, now: int)
    | LaunchFailed(id: CallId)
    | ContextRequested(id: CallId, now: int)
    | Leased(id: CallId, leaseId: LeaseId, now: int, endpointOk: bool)
    | Opened(id: CallId)
    | OpenFailed(id: CallId)
    | Release(id: CallId)
    | ContextClosed(id: CallId, now: int)
    | ReleaseLease(leaseId: LeaseId, now: int)
    | CleanupIdle(slot: SlotId)
    | BrowserClosed(slot: SlotId)

  const GONE := Slot(0, 0, 0, true)

  function At(slots: map<SlotId, Slot>, k: SlotId): Slot { if k in slots then slots[k] else GONE }

  predicate HasCapacity(cfg: Config, slot: Slot) {
    !slot.closing && slot.activeContexts < cfg.maxContextsPerBrowser
  }

  /** The sort order of pickBrowserWithCapacity: fewest contexts, then least recently used. */
  predicate Before(a: Slot, b: Slot) {
    a.activeContexts < b.activeContexts || (a.activeContexts == b.activeContexts && a.lastUsedAt < b.lastUsedAt)
  }

  function Pick(cfg: Config, browsers: seq<SlotId>, slots: map<SlotId, Slot>): (r: Option<SlotId>)
    ensures r.None? <==> forall k :: k in browsers ==> !HasCapacity(cfg, At(slots, k))
    ensures r.Some? ==> r.value in browsers && HasCapacity(cfg, At(slots, r.value))
    ensures r.Some? ==> forall k :: k in browsers && HasCapacity(cfg, At(slots, k)) ==>
              var best, other := At(slots, r.value), At(slots, k);
              best.activeContexts <= other.activeContexts &&
              (best.activeContexts == other.activeContexts ==> best.lastUsedAt <= other.lastUsedAt)
  {
    if browsers == [] then None
    else
      var rest := Pick(cfg, browsers[1..], slots);
      var first := browsers[0];
      if !HasCapacity(cfg, At(slots, first)) then rest
      else if rest.Some? && Before(At(slots, rest.value), At(slots, first)) then rest
      else Some(first)
  }

  function Moved(s: State, id: CallId, kind: Kind, p: Phase): State {
    s.(calls := s.calls[id := Call(kind, p)])
  }

  function Dropped(s: State, id: CallId): State { s.(calls := s.calls - {id}) }

  function Signal(s: State): State {
    if s.waiters == [] then s
    else
      var id := s.waiters[0];
      var rest := s.(waiters := s.waiters[1..]);
      if id in s.calls && s.calls[id].phase == Waiting then Moved(rest, id, s.calls[id].kind, Woken) else rest
  }

  function Enqueue(s: State, id: CallId, kind: Kind): State {
    Moved(s.(waiters := s.waiters + [id]), id, kind, Waiting)
  }

  /** One turn of the loop in pickOrCreateSlot. */
  function LoopTurn(cfg: Config, s: State, id: CallId, kind: Kind, memory: Memory): State {
    var reusable := Pick(cfg, s.browsers, s.slots);
    if reusable.Some? then Moved(s, id, kind, Picked(reusable.value))
    else if |s.browsers| + s.launchInFlight < cfg.maxBrowsers then
      match memory
      case HardLimit => Dropped(s, id)
      case SoftLimit => Moved(s, id, kind, LaunchSkipped)
      case Plenty => Moved(s.(launchInFlight := s.launchInFlight + 1), id, kind, Launching)
    else Enqueue(s, id, kind)
  }

  function Occupy(s: State, k: SlotId, created: int, now: int): State {
    var slot := At(s.slots, k);
    s.(slots := s.slots[k := slot.(activeContexts := slot.activeContexts + 1,
                                   createdContexts := slot.createdContexts + created,
                                   lastUsedAt := now)])
  }

  function Vacate(s: State, k: SlotId, now: Option<int>): State {
    var slot := At(s.slots, k);
    s.(slots := s.slots[k := slot.(activeContexts := Max(0, slot.activeContexts - 1),
                                   lastUsedAt := if now.Some? then now.value else slot.lastUsedAt)])
  }

  function StartClosing(s: State, k: SlotId): State {
    s.(slots := s.slots[k := At(s.slots, k).(closing := true)])
  }

  predicate InPhase(s: State, id: CallId, p: Phase) { id in s.calls && s.calls[id].phase == p }

  predicate Enabled(s: State, e: Event) {
    match e
    case Start(id, _, _) => id !in s.calls
    case Resume(id, _) => InPhase(s, id, Woken)
    case QueueAfterSkip(id) => InPhase(s, id, LaunchSkipped)
    case LaunchOk(id, _) => InPhase(s, id, Launching)
    case LaunchFailed(id) => InPhase(s, id, Launching)
    case ContextRequested(id, _) => id in s.calls && s.calls[id].phase.Picked? && s.calls[id].kind == InProcess
    case Leased(id, leaseId, _, _) =>
      id in s.calls && s.calls[id].phase.Picked? && s.calls[id].kind == Remote && leaseId !in s.leases
    case Opened(id) => id in s.calls && s.calls[id].phase.Opening?
    case OpenFailed(id) => id in s.calls && s.calls[id].phase.Opening?
    // A caller owns a handle from Held on, and may call its release any number of times.
    case Release(id) => id in s.calls ==> s.calls[id].phase.Held? || s.calls[id].phase.Closing?
    case ContextClosed(id, _) => id in s.calls && s.calls[id].phase.Closing?
    case ReleaseLease(_, _) => true
    case CleanupIdle(k) =>
      k in s.browsers && !At(s.slots, k).closing && At(s.slots, k).activeContexts <= 0 && |s.browsers| > 1
    case BrowserClosed(k) => k in s.browsers && At(s.slots, k).closing
  }

  function Next(cfg: Config, s: State, e: Event): State
    requires Enabled(s, e)
  {
    match e
    case Start(id, kind, memory) => LoopTurn(cfg, s, id, kind, memory)
    case Resume(id, memory) => LoopTurn(cfg, s, id, s.calls[id].kind, memory)
    case QueueAfterSkip(id) => Enqueue(s, id, s.calls[id].kind)
    case LaunchOk(id, now) =>
      var k := s.nextId;
      Moved(s.(nextId := k + 1, slots := s.slots[k := Slot(0, 0, now, false)], browsers := s.browsers + [k],
               launchInFlight := Max(0, s.launchInFlight - 1)),
            id, s.calls[id].kind, Picked(k))
    case LaunchFailed(id) => Dropped(s.(launchInFlight := Max(0, s.launchInFlight - 1)), id)
    case ContextRequested(id, now) =>
      var k := s.calls[id].phase.slot;
      Moved(Occupy(s, k, 1, now), id, InProcess, Opening(k))
    case Leased(id, leaseId, now, endpointOk) =>
      var k := s.calls[id].phase.slot;
      var counted := Occupy(Dropped(s, id), k, 0, now);
      if endpointOk then counted.(leases := s.leases[leaseId := k]) else Signal(Vacate(counted, k, None))
    case Opened(id) => Moved(s, id, s.calls[id].kind, Held(s.calls[id].phase.slot))
    case OpenFailed(id) => Signal(Vacate(Dropped(s, id), s.calls[id].phase.slot, None))
    case Release(id) =>
      if id in s.calls && s.calls[id].phase.Held? then Moved(s, id, s.calls[id].kind, Closing(s.calls[id].phase.slot))
      else s
    case ContextClosed(id, now) =>
      var k := s.calls[id].phase.slot;
      var s1 := Vacate(Dropped(s, id), k, Some(now));
      var slot := At(s1.slots, k);
      if slot.activeContexts == 0 && slot.createdContexts >= cfg.recycleUses && |s.browsers| > 1
      then StartClosing(s1, k)
      else Signal(s1)
    case ReleaseLease(leaseId, now) =>
      if leaseId in s.leases
      then Signal(Vacate(s.(leases := s.leases - {leaseId}), s.leases[leaseId], Some(now)))
      else s
    case CleanupIdle(k) => StartClosing(s, k)
    case BrowserClosed(k) => Signal(s.(browsers := Without(s.browsers, k)))
  }

  ghost predicate IsRun(cfg: Config, s: State, es: seq<Event>)
    decreases |es|
  {
    es == [] || (Enabled(s, es[0]) && IsRun(cfg, Next(cfg, s, es[0]), es[1..]))
  }

  ghost function After(cfg: Config, s: State, es: seq<Event>): State
    requires IsRun(cfg, s, es)
    decreases |es|
  {
    if es == [] then s else After(cfg, Next(cfg, s, es[0]), es[1..])
  }

  // ------------------------------------------------------------------ invariant

  predicate Occupies(p: Phase, k: SlotId) { (p.Opening? || p.Held? || p.Closing?) && p.slot == k }

  ghost function ContextsAt(s: State, k: SlotId): set<CallId> {
    set id | id in s.calls && Occupies(s.calls[id].phase, k)
  }

  ghost function LeasesAt(s: State, k: SlotId): set<LeaseId> {
    set l | l in s.leases && s.leases[l] == k
  }

  ghost function Launches(s: State): set<CallId> {
    set id | id in s.calls && s.calls[id].phase == Launching
  }

  /** A slot's counter is exactly its opening, held and closing contexts plus its remote leases. */
  ghost predicate SlotExact(s: State, k: SlotId) {
    At(s.slots, k).activeContexts == |ContextsAt(s, k)| + |LeasesAt(s, k)|
  }

  ghost predicate BrowserLimit(cfg: Config, s: State) {
    s.launchInFlight == |Launches(s)| && |s.browsers| + s.launchInFlight <= cfg.maxBrowsers
  }

  ghost predicate QueueExact(s: State) {
    NoDuplicates(s.waiters) && forall id :: id in s.waiters <==> InPhase(s, id, Waiting)
  }

  ghost predicate SlotTable(s: State) {
    && NoDuplicates(s.browsers)
    && (forall k :: k in s.browsers ==> k in s.slots)
    && (forall k :: k in s.slots ==> k < s.nextId && (s.slots[k].closing || k in s.browsers))
    && (forall l :: l in s.leases ==> s.leases[l] in s.slots)
    && (forall id :: id in s.calls && HasSlot(s.calls[id].phase) ==> s.calls[id].phase.slot in s.slots)
  }

  predicate HasSlot(p: Phase) { p.Picked? || p.Opening? || p.Held? || p.Closing? }

  ghost predicate Inv(cfg: Config, s: State) {
    BrowserLimit(cfg, s) && QueueExact(s) && SlotTable(s) && forall k :: SlotExact(s, k)
  }

  // Each clause of the invariant depends on a part of the state; the lemmas below keep them apart.

  ghost predicate SameExcept(m: map<CallId, Call>, m': map<CallId, Call>, id: CallId) {
    forall i :: i != id ==> (i in m' <==> i in m) && (i in m ==> m'[i] == m[i])
  }

  function Bit(b: bool): int { if b then 1 else 0 }

  predicate CallOccupies(s: State, id: CallId, k: SlotId) { id in s.calls && Occupies(s.calls[id].phase, k) }

  lemma ContextsMoved(s: State, s': State, id: CallId, k: SlotId)
    requires SameExcept(s.calls, s'.calls, id)
    ensures |ContextsAt(s', k)| - Bit(CallOccupies(s', id, k)) == |ContextsAt(s, k)| - Bit(CallOccupies(s, id, k))
  {
    SameButOne(ContextsAt(s, k), ContextsAt(s', k), id);
  }

  lemma LaunchesMoved(s: State, s': State, id: CallId)
    requires SameExcept(s.calls, s'.calls, id)
    ensures |Launches(s')| - Bit(InPhase(s', id, Launching)) == |Launches(s)| - Bit(InPhase(s, id, Launching))
  {
    SameButOne(Launches(s), Launches(s'), id);
  }

  lemma LeasesMoved(s: State, s': State, l: LeaseId, k: SlotId)
    requires forall i :: i != l ==>
             (i in s'.leases <==> i in s.leases) && (i in s.leases ==> s'.leases[i] == s.leases[i])
    ensures |LeasesAt(s', k)| - Bit(l in s'.leases && s'.leases[l] == k) ==
            |LeasesAt(s, k)| - Bit(l in s.leases && s.leases[l] == k)
  {
    SameButOne(LeasesAt(s, k), LeasesAt(s', k), l);
  }

  /** A step that moves one call keeps the invariant when every counter moves with that call. */
  lemma CallMoveKeepsInv(cfg: Config, s: State, s': State, id: CallId)
    requires Inv(cfg, s) && SameExcept(s.calls, s'.calls, id) && s'.leases == s.leases
    requires s'.launchInFlight - s.launchInFlight == Bit(InPhase(s', id, Launching)) - Bit(InPhase(s, id, Launching))
    requires |s'.browsers| + s'.launchInFlight <= cfg.maxBrowsers
    requires QueueExact(s') && SlotTable(s')
    requires forall k :: At(s'.slots, k).activeContexts - At(s.slots, k).activeContexts ==
                         Bit(CallOccupies(s', id, k)) - Bit(CallOccupies(s, id, k))
    ensures Inv(cfg, s')
  {
    LaunchesMoved(s, s', id);
    forall k ensures SlotExact(s', k) {
      assert SlotExact(s, k);
      ContextsMoved(s, s', id, k);
      assert LeasesAt(s', k) == LeasesAt(s, k);
    }
  }

  lemma SignalKeepsQueue(s: State)
    requires QueueExact(s)
    ensures QueueExact(Signal(s))
  {
    if s.waiters != [] {
      var s' := Signal(s);
      var id := s.waiters[0];
      assert id in s.waiters;
      assert s.waiters == [id] + s'.waiters;
      assert id !in s'.waiters;
      assert forall i :: i in s.waiters <==> i == id || i in s'.waiters;
    }
  }

  /** Signalling moves one call from Waiting to Woken and nothing else. */
  lemma SignalKeepsInv(cfg: Config, s: State)
    requires Inv(cfg, s)
    ensures Inv(cfg, Signal(s))
  {
    if s.waiters != [] {
      var s' := Signal(s);
      var id := s.waiters[0];
      SignalKeepsQueue(s);
      assert id in s.waiters;
      CallMoveKeepsInv(cfg, s, s', id);
    }
  }

  lemma EnqueueKeepsInv(cfg: Config, s: State, id: CallId, kind: Kind)
    requires Inv(cfg, s)
    requires id in s.calls ==> s.calls[id].phase == Woken || s.calls[id].phase == LaunchSkipped
    ensures Inv(cfg, Enqueue(s, id, kind))
  {
    var s' := Enqueue(s, id, kind);
    assert id !in s.waiters;
    CallMoveKeepsInv(cfg, s, s', id);
  }

  lemma ProceedKeepsInv(cfg: Config, s: State, id: CallId, kind: Kind, p: Phase)
    requires Inv(cfg, s) && (id in s.calls ==> s.calls[id].phase == Woken)
    requires p == LaunchSkipped || p == Launching || (p.Picked? && p.slot in s.slots)
    requires p == Launching ==> |s.browsers| + s.launchInFlight < cfg.maxBrowsers
    ensures Inv(cfg, Moved(s.(launchInFlight := s.launchInFlight + Bit(p == Launching)), id, kind, p))
  {
    CallMoveKeepsInv(cfg, s, Moved(s.(launchInFlight := s.launchInFlight + Bit(p == Launching)), id, kind, p), id);
  }

  lemma ThrowKeepsInv(cfg: Config, s: State, id: CallId)
    requires Inv(cfg, s) && (id in s.calls ==> s.calls[id].phase == Woken)
    ensures Inv(cfg, Dropped(s, id))
  {
    CallMoveKeepsInv(cfg, s, Dropped(s, id), id);
  }

  lemma LoopTurnKeepsInv(cfg: Config, s: State, id: CallId, kind: Kind, memory: Memory)
    requires Inv(cfg, s) && (id in s.calls ==> s.calls[id].phase == Woken)
    ensures Inv(cfg, LoopTurn(cfg, s, id, kind, memory))
  {
    var reusable := Pick(cfg, s.browsers, s.slots);
    if reusable.Some? {
      ProceedKeepsInv(cfg, s, id, kind, Picked(reusable.value));
    } else if |s.browsers| + s.launchInFlight < cfg.maxBrowsers {
      match memory
      case HardLimit => ThrowKeepsInv(cfg, s, id);
      case SoftLimit => ProceedKeepsInv(cfg, s, id, kind, LaunchSkipped);
      case Plenty => ProceedKeepsInv(cfg, s, id, kind, Launching);
    } else {
      EnqueueKeepsInv(cfg, s, id, kind);
    }
  }

  lemma LaunchKeepsInv(cfg: Config, s: State, e: Event)
    requires Inv(cfg, s) && Enabled(s, e) && (e.LaunchOk? || e.LaunchFailed?)
    ensures Inv(cfg, Next(cfg, s, e))
    ensures Next(cfg, s, e).launchInFlight == s.launchInFlight - 1
  {
    var s' := Next(cfg, s, e);
    assert e.id in Launches(s);
    if e.LaunchOk? {
      assert s.nextId !in s.slots && s.nextId !in s.browsers;
    }
    CallMoveKeepsInv(cfg, s, s', e.id);
  }

  lemma OccupyKeepsInv(cfg: Config, s: State, id: CallId, now: int)
    requires Inv(cfg, s) && Enabled(s, ContextRequested(id, now))
    ensures Inv(cfg, Next(cfg, s, ContextRequested(id, now)))
  {
    CallMoveKeepsInv(cfg, s, Next(cfg, s, ContextRequested(id, now)), id);
  }

  lemma LeaseGrantKeepsInv(cfg: Config, s: State, id: CallId, l: LeaseId, now: int)
    requires Inv(cfg, s) && Enabled(s, Leased(id, l, now, true))
    ensures Inv(cfg, Next(cfg, s, Leased(id, l, now, true)))
  {
    var s' := Next(cfg, s, Leased(id, l, now, true));
    LaunchesMoved(s, s', id);
    forall j ensures SlotExact(s', j) {
      assert SlotExact(s, j);
      ContextsMoved(s, s', id, j);
      LeasesMoved(s, s', l, j);
    }
  }

  lemma LeaseUndoneKeepsInv(cfg: Config, s: State, id: CallId, l: LeaseId, now: int)
    requires Inv(cfg, s) && Enabled(s, Leased(id, l, now, false))
    ensures Inv(cfg, Next(cfg, s, Leased(id, l, now, false)))
  {
    var k := s.calls[id].phase.slot;
    assert SlotExact(s, k);
    var undone := Vacate(Occupy(Dropped(s, id), k, 0, now), k, None);
    CallMoveKeepsInv(cfg, s, undone, id);
    SignalKeepsInv(cfg, undone);
  }

  lemma LeasedKeepsInv(cfg: Config, s: State, id: CallId, l: LeaseId, now: int, ok: bool)
    requires Inv(cfg, s) && Enabled(s, Leased(id, l, now, ok))
    ensures Inv(cfg, Next(cfg, s, Leased(id, l, now, ok)))
  {
    if ok { LeaseGrantKeepsInv(cfg, s, id, l, now); } else { LeaseUndoneKeepsInv(cfg, s, id, l, now); }
  }

  lemma PhaseOnlyKeepsInv(cfg: Config, s: State, id: CallId, p: Phase)
    requires Inv(cfg, s) && id in s.calls && HasSlot(p) && !p.Picked?
    requires HasSlot(s.calls[id].phase) && !s.calls[id].phase.Picked? && s.calls[id].phase.slot == p.slot
    ensures Inv(cfg, Moved(s, id, s.calls[id].kind, p))
  {
    CallMoveKeepsInv(cfg, s, Moved(s, id, s.calls[id].kind, p), id);
  }

  /** Giving a context back: the slot's counter falls by exactly one, so the clamp at zero never acts. */
  lemma VacateKeepsInv(cfg: Config, s: State, id: CallId, now: Option<int>)
    requires Inv(cfg, s) && id in s.calls && HasSlot(s.calls[id].phase) && !s.calls[id].phase.Picked?
    ensures var k := s.calls[id].phase.slot;
            var s' := Vacate(Dropped(s, id), k, now);
            Inv(cfg, s') && At(s'.slots, k).activeContexts == At(s.slots, k).activeContexts - 1 >= 0
  {
    var k := s.calls[id].phase.slot;
    assert SlotExact(s, k) && id in ContextsAt(s, k);
    CallMoveKeepsInv(cfg, s, Vacate(Dropped(s, id), k, now), id);
  }

  lemma ReleaseLeaseKeepsInv(cfg: Config, s: State, l: LeaseId, now: int)
    requires Inv(cfg, s) && l in s.leases
    ensures var k := s.leases[l];
            var s' := Vacate(s.(leases := s.leases - {l}), k, Some(now));
            Inv(cfg, s') && At(s'.slots, k).activeContexts == At(s.slots, k).activeContexts - 1 >= 0
  {
    var k := s.leases[l];
    var s' := Vacate(s.(leases := s.leases - {l}), k, Some(now));
    assert SlotExact(s, k) && l in LeasesAt(s, k);
    assert Launches(s') == Launches(s);
    forall j ensures SlotExact(s', j) {
      assert SlotExact(s, j);
      assert ContextsAt(s', j) == ContextsAt(s, j);
      LeasesMoved(s, s', l, j);
    }
  }

  lemma ClosingKeepsInv(cfg: Config, s: State, k: SlotId)
    requires Inv(cfg, s) && k in s.slots
    ensures Inv(cfg, StartClosing(s, k))
  {
    var s' := StartClosing(s, k);
    assert Launches(s') == Launches(s);
    forall j ensures SlotExact(s', j) {
      assert SlotExact(s, j);
      assert ContextsAt(s', j) == ContextsAt(s, j) && LeasesAt(s', j) == LeasesAt(s, j);
    }
  }

  lemma RemovalKeepsInv(cfg: Config, s: State, k: SlotId)
    requires Inv(cfg, s) && k in s.browsers && At(s.slots, k).closing
    ensures Inv(cfg, s.(browsers := Without(s.browsers, k)))
  {
    var s' := s.(browsers := Without(s.browsers, k));
    WithoutRemovesOne(s.browsers, k);
    assert Launches(s') == Launches(s);
    forall j ensures SlotExact(s', j) {
      assert SlotExact(s, j);
      assert ContextsAt(s', j) == ContextsAt(s, j) && LeasesAt(s', j) == LeasesAt(s, j);
    }
  }

  /** Every step keeps the browser limit, the exact slot counters, the exact queue and the slot table. */
  lemma StepKeepsInv(cfg: Config, s: State, e: Event)
    requires Inv(cfg, s) && Enabled(s, e)
    ensures Inv(cfg, Next(cfg, s, e))
  {
    match e
    case Start(id, kind, memory) => LoopTurnKeepsInv(cfg, s, id, kind, memory);
    case Resume(id, memory) => LoopTurnKeepsInv(cfg, s, id, s.calls[id].kind, memory);
    case QueueAfterSkip(id) => EnqueueKeepsInv(cfg, s, id, s.calls[id].kind);
    case LaunchOk(_, _) => LaunchKeepsInv(cfg, s, e);
    case LaunchFailed(_) => LaunchKeepsInv(cfg, s, e);
    case ContextRequested(id, now) => OccupyKeepsInv(cfg, s, id, now);
    case Leased(id, l, now, ok) => LeasedKeepsInv(cfg, s, id, l, now, ok);
    case Opened(id) => PhaseOnlyKeepsInv(cfg, s, id, Held(s.calls[id].phase.slot));
    case OpenFailed(id) =>
      VacateKeepsInv(cfg, s, id, None);
      SignalKeepsInv(cfg, Vacate(Dropped(s, id), s.calls[id].phase.slot, None));
    case Release(id) =>
      if id in s.calls && s.calls[id].phase.Held? {
        PhaseOnlyKeepsInv(cfg, s, id, Closing(s.calls[id].phase.slot));
      }
    case ContextClosed(id, now) =>
      var k := s.calls[id].phase.slot;
      VacateKeepsInv(cfg, s, id, Some(now));
      var s1 := Vacate(Dropped(s, id), k, Some(now));
      ClosingKeepsInv(cfg, s1, k);
      SignalKeepsInv(cfg, s1);
    case ReleaseLease(l, now) =>
      if l in s.leases {
        ReleaseLeaseKeepsInv(cfg, s, l, now);
        SignalKeepsInv(cfg, Vacate(s.(leases := s.leases - {l}), s.leases[l], Some(now)));
      }
    case CleanupIdle(k) => ClosingKeepsInv(cfg, s, k);
    case BrowserClosed(k) =>
      RemovalKeepsInv(cfg, s, k);
      SignalKeepsInv(cfg, s.(browsers := Without(s.browsers, k)));
  }

  lemma {:induction false} RunKeepsInv(cfg: Config, s: State, es: seq<Event>)
    requires Inv(cfg, s) && IsRun(cfg, s, es)
    ensures Inv(cfg, After(cfg, s, es))
    decreases |es|
  {
    if es == [] {
    } else {
      StepKeepsInv(cfg, s, es[0]);
      RunKeepsInv(cfg, Next(cfg, s, es[0]), es[1..]);
    }
  }

  lemma InitialInv(cfg: Config)
    ensures Inv(cfg, INITIAL)
  {
    assert Launches(INITIAL) == {};
    forall k ensures SlotExact(INITIAL, k) {
      assert ContextsAt(INITIAL, k) == {} && LeasesAt(INITIAL, k) == {};
    }
  }

  /** In every reachable state: the browser limit, and counters that agree with their holders. */
  lemma ReachableStates(cfg: Config, es: seq<Event>)
    requires IsRun(cfg, INITIAL, es)
    ensures var s := After(cfg, INITIAL, es);
            && 0 <= s.launchInFlight && |s.browsers| + s.launchInFlight <= cfg.maxBrowsers
            && (forall k :: 0 <= At(s.slots, k).activeContexts == |ContextsAt(s, k)| + |LeasesAt(s, k)|)
            && QueueExact(s)
  {
    InitialInv(cfg);
    RunKeepsInv(cfg, INITIAL, es);
    var s := After(cfg, INITIAL, es);
    forall k ensures 0 <= At(s.slots, k).activeContexts == |ContextsAt(s, k)| + |LeasesAt(s, k)| {
      assert SlotExact(s, k);
    }
  }

  // ------------------------------------------------------------------ when a browser is recycled

  predicate OpenBrowser(s: State, k: SlotId) { k in s.slots && !s.slots[k].closing }

  /** The call of the step has browser k. */
  predicate CallOn(s: State, id: CallId, k: SlotId) {
    id in s.calls && HasSlot(s.calls[id].phase) && s.calls[id].phase.slot == k
  }

  ghost predicate NothingLeftOn(s: State, k: SlotId) { ContextsAt(s, k) == {} && LeasesAt(s, k) == {} }

  lemma SignalKeepsSlots(s: State)
    ensures Signal(s).slots == s.slots && Signal(s).leases == s.leases
    ensures forall k :: ContextsAt(Signal(s), k) == ContextsAt(s, k)
  {
    var id := if s.waiters == [] then 0 else s.waiters[0];
    assert forall i :: i != id ==> (i in Signal(s).calls <==> i in s.calls);
    forall k ensures ContextsAt(Signal(s), k) == ContextsAt(s, k) {
    }
  }

  lemma EmptyExactly(s: State, k: SlotId)
    requires SlotExact(s, k)
    ensures At(s.slots, k).activeContexts == 0 <==> NothingLeftOn(s, k)
  {
  }

  /** Closing a context on browser k: whether the browser then starts to close. */
  lemma LastContextRecyclesExactly(cfg: Config, s: State, id: CallId, now: int, k: SlotId)
    requires Inv(cfg, s) && Enabled(s, ContextClosed(id, now)) && OpenBrowser(s, k)
    ensures var s' := Next(cfg, s, ContextClosed(id, now));
            !OpenBrowser(s', k) <==>
            CallOn(s, id, k) && NothingLeftOn(s', k) && s.slots[k].createdContexts >= cfg.recycleUses &&
              |s.browsers| > 1
  {
    var s' := Next(cfg, s, ContextClosed(id, now));
    var j := s.calls[id].phase.slot;
    var s1 := Vacate(Dropped(s, id), j, Some(now));
    SignalKeepsSlots(s1);
    StepKeepsInv(cfg, s, ContextClosed(id, now));
    assert SlotExact(s', k);
    EmptyExactly(s', k);
  }

  lemma OthersCloseNothing(cfg: Config, s: State, e: Event, k: SlotId)
    requires Inv(cfg, s) && Enabled(s, e) && OpenBrowser(s, k) && !e.ContextClosed? && !e.CleanupIdle?
    ensures OpenBrowser(Next(cfg, s, e), k)
  {
    if e.Leased? {
      SignalKeepsSlots(Vacate(Occupy(Dropped(s, e.id), s.calls[e.id].phase.slot, 0, e.now), s.calls[e.id].phase.slot,
                              None));
    }
  }

  lemma CleanupCloses(cfg: Config, s: State, k: SlotId)
    requires Inv(cfg, s) && Enabled(s, CleanupIdle(k))
    ensures var s' := Next(cfg, s, CleanupIdle(k));
            !OpenBrowser(s', k) && NothingLeftOn(s', k) && forall j :: j != k ==>
              OpenBrowser(s', j) == OpenBrowser(s, j)
  {
    var s' := Next(cfg, s, CleanupIdle(k));
    assert SlotExact(s, k);
    assert ContextsAt(s', k) == ContextsAt(s, k) && LeasesAt(s', k) == LeasesAt(s, k);
    EmptyExactly(s, k);
  }

  /**
   * A step starts to close an open browser in exactly two cases: the clean-up takes an idle
   * one, or the last context on it closes after at least recycleUses contexts, and in both
   * another browser exists.
   */
  lemma ClosesBrowserExactly(cfg: Config, s: State, e: Event, k: SlotId)
    requires Inv(cfg, s) && Enabled(s, e) && OpenBrowser(s, k)
    ensures var s' := Next(cfg, s, e);
            !OpenBrowser(s', k) <==>
            && |s.browsers| > 1 && NothingLeftOn(s', k)
            && (|| e == CleanupIdle(k)
                || (e.ContextClosed? && CallOn(s, e.id, k) && s.slots[k].createdContexts >= cfg.recycleUses))
  {
    if e.ContextClosed? {
      LastContextRecyclesExactly(cfg, s, e.id, e.now, k);
    } else if e.CleanupIdle? {
      CleanupCloses(cfg, s, e.slot);
    } else {
      OthersCloseNothing(cfg, s, e, k);
    }
  }

  /** What a step notes on browser k: a use, when a context is requested, and the time. */
  predicate UsesBrowser(s: State, e: Event, k: SlotId) { e.ContextRequested? && CallOn(s, e.id, k) }

  predicate TouchesBrowser(s: State, e: Event, k: SlotId) {
    match e
    case LaunchOk(_, _) => k == s.nextId
    case ContextRequested(id, _) => CallOn(s, id, k)
    case Leased(id, _, _, _) => CallOn(s, id, k)
    case ContextClosed(id, _) => CallOn(s, id, k)
    case ReleaseLease(l, _) => l in s.leases && s.leases[l] == k
    case _ => false
  }

  ghost function Uses(cfg: Config, s: State, es: seq<Event>, k: SlotId): nat
    requires IsRun(cfg, s, es)
    decreases |es|
  {
    if es == [] then 0
    else (if UsesBrowser(s, es[0], k) then 1 else 0) + Uses(cfg, Next(cfg, s, es[0]), es[1..], k)
  }

  /** The time of the last step that touched browser k, or the given one. */
  ghost function LastTouch(cfg: Config, s: State, es: seq<Event>, k: SlotId, before: int): int
    requires IsRun(cfg, s, es)
    decreases |es|
  {
    if es == [] then before
    else LastTouch(cfg, Next(cfg, s, es[0]), es[1..], k, if TouchesBrowser(s, es[0], k) then es[0].now else before)
  }

  /** The steps that do not touch any browser note nothing. */
  lemma OtherStepNotesNothing(cfg: Config, s: State, e: Event, k: SlotId)
    requires Enabled(s, e)
    requires !e.LaunchOk? && !e.ContextRequested? && !e.Leased? && !e.ContextClosed? && !e.ReleaseLease?
    ensures At(Next(cfg, s, e).slots, k).createdContexts == At(s.slots, k).createdContexts
    ensures At(Next(cfg, s, e).slots, k).lastUsedAt == At(s.slots, k).lastUsedAt
  {
  }

  lemma StepNotesUse(cfg: Config, s: State, e: Event, k: SlotId)
    requires Inv(cfg, s) && Enabled(s, e)
    ensures At(Next(cfg, s, e).slots, k).createdContexts ==
            At(s.slots, k).createdContexts + (if UsesBrowser(s, e, k) then 1 else 0)
    ensures At(Next(cfg, s, e).slots, k).lastUsedAt ==
            if TouchesBrowser(s, e, k) then e.now else At(s.slots, k).lastUsedAt
  {
    if !e.LaunchOk? && !e.ContextRequested? && !e.Leased? && !e.ContextClosed? && !e.ReleaseLease? {
      OtherStepNotesNothing(cfg, s, e, k);
    } else if e.Leased? {
      var j := s.calls[e.id].phase.slot;
      var counted := Occupy(Dropped(s, e.id), j, 0, e.now);
      SignalKeepsSlots(Vacate(counted, j, None));
    } else if e.ContextClosed? {
      SignalKeepsSlots(Vacate(Dropped(s, e.id), s.calls[e.id].phase.slot, Some(e.now)));
    }
  }

  /** Over any run the use count of a browser is the contexts requested on it; leases do not count. */
  lemma {:induction false} UsesCounted(cfg: Config, s: State, es: seq<Event>, k: SlotId)
    requires Inv(cfg, s) && IsRun(cfg, s, es)
    ensures At(After(cfg, s, es).slots, k).createdContexts == At(s.slots, k).createdContexts + Uses(cfg, s, es, k)
    ensures At(After(cfg, s, es).slots, k).lastUsedAt == LastTouch(cfg, s, es, k, At(s.slots, k).lastUsedAt)
    decreases |es|
  {
    if es == [] {
    } else {
      StepNotesUse(cfg, s, es[0], k);
      StepKeepsInv(cfg, s, es[0]);
      UsesCounted(cfg, Next(cfg, s, es[0]), es[1..], k);
    }
  }

  /**
   * After any run: closing a context starts to close its open browser exactly when nothing is
   * left on it, another browser exists, and at least recycleUses contexts were requested on it
   * in that run. No browser used fewer times is ever recycled.
   */
  lemma RecycledExactly(cfg: Config, es: seq<Event>, id: CallId, now: int, k: SlotId)
    requires IsRun(cfg, INITIAL, es)
    requires var s := After(cfg, INITIAL, es); Enabled(s, ContextClosed(id, now)) && OpenBrowser(s, k)
    ensures var s := After(cfg, INITIAL, es);
            var s' := Next(cfg, s, ContextClosed(id, now));
            !OpenBrowser(s', k) <==>
            CallOn(s, id, k) && NothingLeftOn(s', k) && |s.browsers| > 1 && Uses(cfg, INITIAL, es, k) >= cfg.recycleUses
  {
    InitialInv(cfg);
    RunKeepsInv(cfg, INITIAL, es);
    UsesCounted(cfg, INITIAL, es, k);
    LastContextRecyclesExactly(cfg, After(cfg, INITIAL, es), id, now, k);
  }

  // ------------------------------------------------------------------ how full a browser gets

  /** The places taken on browser k: its contexts and its remote leases. */
  ghost function Load(s: State, k: SlotId): nat { |ContextsAt(s, k)| + |LeasesAt(s, k)| }

  ghost predicate HasRoom(cfg: Config, s: State, k: SlotId) {
    k in s.browsers && OpenBrowser(s, k) && Load(s, k) < cfg.maxContextsPerBrowser
  }

  /** None with room has a lower load, nor the same load and an earlier last use. */
  ghost predicate LeastUsed(cfg: Config, s: State, k: SlotId) {
    HasRoom(cfg, s, k) && forall j :: HasRoom(cfg, s, j) ==>
      Load(s, k) <= Load(s, j) &&
      (Load(s, k) == Load(s, j) ==> At(s.slots, k).lastUsedAt <= At(s.slots, j).lastUsedAt)
  }

  predicate Tries(s: State, e: Event) { e.Start? || e.Resume? }

  lemma RoomIsCapacity(cfg: Config, s: State, k: SlotId)
    requires Inv(cfg, s)
    ensures HasRoom(cfg, s, k) <==> k in s.browsers && HasCapacity(cfg, At(s.slots, k))
  {
    assert SlotExact(s, k);
  }

  lemma PickIsLeastUsed(cfg: Config, s: State, k: SlotId)
    requires Inv(cfg, s) && Pick(cfg, s.browsers, s.slots) == Some(k)
    ensures LeastUsed(cfg, s, k)
  {
    RoomIsCapacity(cfg, s, k);
    assert SlotExact(s, k);
    forall j | HasRoom(cfg, s, j)
      ensures Load(s, k) <= Load(s, j)
      ensures Load(s, k) == Load(s, j) ==> At(s.slots, k).lastUsedAt <= At(s.slots, j).lastUsedAt
    {
      RoomIsCapacity(cfg, s, j);
      assert SlotExact(s, j);
    }
  }

  /**
   * What a turn of the loop comes to. The call gets a browser exactly when an open one has room,
   * and then one that no other with room undercuts: the least loaded, and of those the one left
   * alone for longest; else it launches, or gives way to the memory limits, exactly
   * when fewer browsers exist or are under way than allowed; else it goes to the end of the queue.
   */
  lemma TurnExactly(cfg: Config, s: State, e: Event)
    requires Inv(cfg, s) && Enabled(s, e) && Tries(s, e)
    ensures var s' := Next(cfg, s, e);
            var room := exists k :: HasRoom(cfg, s, k);
            var mayLaunch := !room && |s.browsers| + |Launches(s)| < cfg.maxBrowsers;
            && ((exists k :: LeastUsed(cfg, s, k) && InPhase(s', e.id, Picked(k))) <==> room)
            && (InPhase(s', e.id, Launching) <==> mayLaunch && e.memory == Plenty)
            && (InPhase(s', e.id, LaunchSkipped) <==> mayLaunch && e.memory == SoftLimit)
            && (e.id !in s'.calls <==> mayLaunch && e.memory == HardLimit)
            && s'.waiters == s.waiters + (if !room && !mayLaunch then [e.id] else [])
  {
    var s' := Next(cfg, s, e);
    forall k ensures HasRoom(cfg, s, k) <==> k in s.browsers && HasCapacity(cfg, At(s.slots, k)) {
      RoomIsCapacity(cfg, s, k);
    }
    var pick := Pick(cfg, s.browsers, s.slots);
    if pick.Some? {
      PickIsLeastUsed(cfg, s, pick.value);
      assert LeastUsed(cfg, s, pick.value) && InPhase(s', e.id, Picked(pick.value));
    } else {
      assert forall k :: !HasRoom(cfg, s, k);
    }
  }

  /** The step takes a place on browser k for the call that picked it. */
  predicate TakesPlace(s: State, e: Event, k: SlotId) {
    (e.ContextRequested? || (e.Leased? && e.endpointOk)) && CallOn(s, e.id, k)
  }

  predicate GivesPlaceBack(s: State, e: Event, k: SlotId) {
    match e
    case OpenFailed(id) => CallOn(s, id, k)
    case ContextClosed(id, _) => CallOn(s, id, k)
    case ReleaseLease(l, _) => l in s.leases && s.leases[l] == k
    case _ => false
  }

  lemma StepMovesCounter(cfg: Config, s: State, e: Event, k: SlotId)
    requires Inv(cfg, s) && Enabled(s, e)
    requires !e.Start? && !e.Resume?
    ensures At(Next(cfg, s, e).slots, k).activeContexts - At(s.slots, k).activeContexts ==
            Bit(TakesPlace(s, e, k)) - Bit(GivesPlaceBack(s, e, k))
  {
    assert SlotExact(s, k);
    if e.Leased? {
      var j := s.calls[e.id].phase.slot;
      SignalKeepsSlots(Vacate(Occupy(Dropped(s, e.id), j, 0, e.now), j, None));
    } else if e.OpenFailed? {
      var j := s.calls[e.id].phase.slot;
      assert e.id in ContextsAt(s, j);
      SignalKeepsSlots(Vacate(Dropped(s, e.id), j, None));
    } else if e.ContextClosed? {
      var j := s.calls[e.id].phase.slot;
      assert e.id in ContextsAt(s, j);
      SignalKeepsSlots(Vacate(Dropped(s, e.id), j, Some(e.now)));
    } else if e.ReleaseLease? && e.leaseId in s.leases {
      var j := s.leases[e.leaseId];
      assert e.leaseId in LeasesAt(s, j);
      SignalKeepsSlots(Vacate(s.(leases := s.leases - {e.leaseId}), j, Some(e.now)));
    }
  }

  /** Every step moves the load of every browser by the place it takes or gives back there. */
  lemma LoadMovesExactly(cfg: Config, s: State, e: Event, k: SlotId)
    requires Inv(cfg, s) && Enabled(s, e)
    ensures Load(Next(cfg, s, e), k) == Load(s, k) + Bit(TakesPlace(s, e, k)) - Bit(GivesPlaceBack(s, e, k))
  {
    StepKeepsInv(cfg, s, e);
    assert SlotExact(s, k) && SlotExact(Next(cfg, s, e), k);
    if !e.Start? && !e.Resume? { StepMovesCounter(cfg, s, e, k); }
  }

  /**
   * A step takes a browser past its context cap exactly when it takes a place that was free
   * when the call picked the browser and is free no longer.
   */
  lemma OverfillsExactly(cfg: Config, s: State, e: Event, k: SlotId)
    requires Inv(cfg, s) && Enabled(s, e) && Load(s, k) <= cfg.maxContextsPerBrowser
    ensures Load(Next(cfg, s, e), k) > cfg.maxContextsPerBrowser <==>
            Load(s, k) == cfg.maxContextsPerBrowser && TakesPlace(s, e, k)
  {
    LoadMovesExactly(cfg, s, e, k);
  }

  /** n calls have picked browser 1. */
  function PickedCalls(n: nat): (calls: map<CallId, Call>)
    ensures forall i: nat :: i in calls <==> i < n
    ensures forall i: nat :: i < n ==> calls[i] == Call(InProcess, Picked(1))
  {
    if n == 0 then map[] else PickedCalls(n - 1)[n - 1 := Call(InProcess, Picked(1))]
  }

  /** The first m of them have asked for their context. */
  function CrowdCalls(n: nat, m: nat): (calls: map<CallId, Call>)
    requires m <= n
    ensures forall i: nat :: i in calls <==> i < n
    ensures forall i: nat :: i < n ==> calls[i] == Call(InProcess, if i < m then Opening(1) else Picked(1))
  {
    if m == 0 then PickedCalls(n) else CrowdCalls(n, m - 1)[m - 1 := Call(InProcess, Opening(1))]
  }

  function Crowd(n: nat, m: nat): State
    requires m <= n
  {
    State([1], map[1 := Slot(m, m, 0, false)], [], map[], 0, 2, CrowdCalls(n, m))
  }

  lemma {:induction false} CrowdRequests(cfg: Config, n: nat, m: nat) returns (es: seq<Event>)
    requires m <= n
    ensures Reaches(cfg, Crowd(n, m), es, Crowd(n, n))
    decreases n - m
  {
    if m == n {
      es := [];
    } else {
      var e := ContextRequested(m, 0);
      var rest := CrowdRequests(cfg, n, m + 1);
      assert Next(cfg, Crowd(n, m), e) == Crowd(n, m + 1);
      ReachesCons(cfg, Crowd(n, m), e, rest, Crowd(n, n));
      es := [e] + rest;
    }
  }

  lemma OnePicks(cfg: Config, j: nat)
    requires cfg.maxContextsPerBrowser >= 1
    ensures Enabled(Crowd(j, 0), Start(j, InProcess, Plenty))
    ensures Next(cfg, Crowd(j, 0), Start(j, InProcess, Plenty)) == Crowd(j + 1, 0)
  {
    var s := Crowd(j, 0);
    assert Pick(cfg, s.browsers, s.slots) == Some(1) by {
      assert HasCapacity(cfg, At(s.slots, 1)) && 1 in s.browsers;
    }
  }

  lemma {:induction false} CrowdPicks(cfg: Config, n: nat, j: nat) returns (es: seq<Event>)
    requires j <= n && cfg.maxContextsPerBrowser >= 1
    ensures Reaches(cfg, Crowd(j, 0), es, Crowd(n, n))
    decreases n - j
  {
    if j == n {
      es := CrowdRequests(cfg, n, 0);
    } else {
      var e := Start(j, InProcess, Plenty);
      var rest := CrowdPicks(cfg, n, j + 1);
      OnePicks(cfg, j);
      ReachesCons(cfg, Crowd(j, 0), e, rest, Crowd(n, n));
      es := [e] + rest;
    }
  }

  lemma {:induction false} CrowdSize(n: nat, m: nat)
    requires m <= n
    ensures |ContextsAt(Crowd(n, m), 1)| == m
  {
    if m == 0 {
      assert ContextsAt(Crowd(n, 0), 1) == {};
    } else {
      CrowdSize(n, m - 1);
      ContextsMoved(Crowd(n, m - 1), Crowd(n, m), m - 1, 1);
    }
  }

  /**
   * The cap itself is not kept: calls that pick before any of them counts all get the same
   * browser, so whatever the cap, some run opens any number of contexts on one browser.
   */
  lemma ContextCapBroken(cfg: Config, n: nat) returns (es: seq<Event>)
    requires cfg.maxBrowsers >= 1 && cfg.maxContextsPerBrowser >= 1 && n >= 1
    ensures IsRun(cfg, INITIAL, es) && Load(After(cfg, INITIAL, es), 1) == n
  {
    var start, launched := Start(0, InProcess, Plenty), LaunchOk(0, 0);
    var launching := Next(cfg, INITIAL, start);
    var rest := CrowdPicks(cfg, n, 1);
    assert Next(cfg, launching, launched) == Crowd(1, 0) by {
      assert Next(cfg, launching, launched).calls == CrowdCalls(1, 0);
    }
    ReachesCons(cfg, launching, launched, rest, Crowd(n, n));
    ReachesCons(cfg, INITIAL, start, [launched] + rest, Crowd(n, n));
    es := [start] + ([launched] + rest);
    CrowdSize(n, n);
    assert LeasesAt(Crowd(n, n), 1) == {};
  }

  // ------------------------------------------------------------------ releases

  /** The handle's release has been called: its context is closing, or the call is gone. */
  predicate Released(s: State, id: CallId) { id in s.calls ==> s.calls[id].phase.Closing? }

  lemma TurnStaysReleased(cfg: Config, s: State, mover: CallId, kind: Kind, memory: Memory, id: CallId)
    requires Released(s, id) && mover != id
    ensures Released(LoopTurn(cfg, s, mover, kind, memory), id)
  {
  }

  lemma SignalStaysReleased(s: State, id: CallId)
    requires Released(s, id)
    ensures Released(Signal(s), id)
  {
  }

  lemma StepStaysReleased(cfg: Config, s: State, e: Event, id: CallId)
    requires Enabled(s, e) && Released(s, id) && !(e.Start? && e.id == id)
    ensures Released(Next(cfg, s, e), id)
  {
    if e.Start? {
      TurnStaysReleased(cfg, s, e.id, e.kind, e.memory, id);
    } else if e.Resume? {
      TurnStaysReleased(cfg, s, e.id, s.calls[e.id].kind, e.memory, id);
    } else if e.BrowserClosed? {
      SignalStaysReleased(s.(browsers := Without(s.browsers, e.slot)), id);
    }
  }

  /** A later release of a released context, after any run in between, changes nothing. */
  lemma {:induction false} ReleaseOnlyOnce(cfg: Config, s: State, es: seq<Event>, id: CallId)
    requires Released(s, id) && IsRun(cfg, s, es) && forall e :: e in es ==> !(e.Start? && e.id == id)
    ensures var t := After(cfg, s, es); Enabled(t, Release(id)) && Next(cfg, t, Release(id)) == t
    decreases |es|
  {
    if es != [] {
      StepStaysReleased(cfg, s, es[0], id);
      ReleaseOnlyOnce(cfg, Next(cfg, s, es[0]), es[1..], id);
    }
  }

  /** So does a later release of a released lease; lease ids are fresh random ids. */
  lemma {:induction false} LeaseReleasedOnlyOnce(cfg: Config, s: State, es: seq<Event>, l: LeaseId, now: int)
    requires l !in s.leases && IsRun(cfg, s, es) && forall e :: e in es ==> !(e.Leased? && e.leaseId == l)
    ensures Next(cfg, After(cfg, s, es), ReleaseLease(l, now)) == After(cfg, s, es)
    decreases |es|
  {
    if es != [] {
      assert Next(cfg, s, es[0]).leases.Keys <= s.leases.Keys + if es[0].Leased? then {es[0].leaseId} else {};
      LeaseReleasedOnlyOnce(cfg, Next(cfg, s, es[0]), es[1..], l, now);
    }
  }

  /**
   * Whatever happens in between, and however often release is called again, releasing a context or a lease again
   * changes nothing.
   */
  lemma ReleaseAgainChangesNothing(cfg: Config, s: State, es: seq<Event>, id: CallId, l: LeaseId, now: int, later: int)
    requires forall e :: e in es ==> !(e.Start? && e.id == id) && !(e.Leased? && e.leaseId == l)
    ensures Enabled(s, Release(id)) && IsRun(cfg, Next(cfg, s, Release(id)), es) ==>
              var t := After(cfg, Next(cfg, s, Release(id)), es);
                Enabled(t, Release(id)) && Next(cfg, t, Release(id)) == t
    ensures IsRun(cfg, Next(cfg, s, ReleaseLease(l, now)), es) ==>
              var t := After(cfg, Next(cfg, s, ReleaseLease(l, now)), es); Next(cfg, t, ReleaseLease(l, later)) == t
  {
    if Enabled(s, Release(id)) && IsRun(cfg, Next(cfg, s, Release(id)), es) {
      ReleaseOnlyOnce(cfg, Next(cfg, s, Release(id)), es, id);
    }
    var freed := Next(cfg, s, ReleaseLease(l, now));
    if IsRun(cfg, freed, es) {
      assert l !in freed.leases;
      LeaseReleasedOnlyOnce(cfg, freed, es, l, later);
    }
  }

  // ------------------------------------------------------------------ what the engine does not guarantee

  lemma RunFrom(cfg: Config, s: State, e: Event, es: seq<Event>)
    requires Enabled(s, e) && IsRun(cfg, Next(cfg, s, e), es)
    ensures IsRun(cfg, s, [e] + es) && After(cfg, s, [e] + es) == After(cfg, Next(cfg, s, e), es)
  {
    assert ([e] + es)[0] == e && ([e] + es)[1..] == es;
  }

  /** No lease and no closing browser is left to signal, and the idle cleanup never closes the last browser. */
  predicate NoSignaller(s: State) {
    s.leases == map[] && |s.browsers| <= 1 && forall k :: k in s.browsers ==> !At(s.slots, k).closing
  }

  /** Calls are queued, and nothing is left in the engine that could ever signal them. */
  ghost predicate Stranded(s: State) {
    && s.waiters != []
    && (forall id :: id in s.calls ==> s.calls[id].phase == Waiting)
    && NoSignaller(s)
  }

  /** The steps that end a call without signalling: every other step keeps waiters reachable. */
  predicate EndsSilently(e: Event) {
    || e.LaunchFailed?
    || e.QueueAfterSkip?
    || (e.Resume? && e.memory == HardLimit)
  }

  /** A call only queues when every browser is busy, closing, or still being launched. */
  lemma QueueingStrandsNobody(cfg: Config, s: State, id: CallId, kind: Kind)
    requires cfg.maxBrowsers >= 1 && cfg.maxContextsPerBrowser >= 1 && Inv(cfg, s)
    requires id in s.calls ==> s.calls[id].phase == Woken
    requires Pick(cfg, s.browsers, s.slots).None? && |s.browsers| + s.launchInFlight >= cfg.maxBrowsers
    ensures !Stranded(Enqueue(s, id, kind))
  {
    var s' := Enqueue(s, id, kind);
    if s.launchInFlight > 0 {
      var i :| i in Launches(s);
      assert s'.calls[i].phase == Launching;
    } else {
      var k := s.browsers[0];
      assert k in s.browsers && !HasCapacity(cfg, At(s.slots, k)) && SlotExact(s, k);
      if !At(s.slots, k).closing {
        if LeasesAt(s, k) != {} {
          var l :| l in LeasesAt(s, k);
          assert l in s'.leases;
        } else {
          var i :| i in ContextsAt(s, k);
          assert Occupies(s'.calls[i].phase, k);
        }
      }
    }
  }

  lemma SignalLeavesWoken(s: State, mid: State)
    requires QueueExact(s) && mid.waiters == s.waiters
    requires forall id :: id in s.calls && s.calls[id].phase == Waiting ==>
             id in mid.calls && mid.calls[id] == s.calls[id]
    ensures !Stranded(Signal(mid))
  {
    if mid.waiters != [] {
      var id := mid.waiters[0];
      assert id in s.waiters;
      assert Signal(mid).calls[id].phase == Woken;
    }
  }

  lemma QueueStepStrandsNobody(cfg: Config, s: State, id: CallId, kind: Kind, memory: Memory)
    requires cfg.maxBrowsers >= 1 && cfg.maxContextsPerBrowser >= 1 && Inv(cfg, s) && !Stranded(s)
    requires id in s.calls ==> s.calls[id].phase == Woken && memory != HardLimit
    ensures !Stranded(LoopTurn(cfg, s, id, kind, memory))
  {
    var s' := LoopTurn(cfg, s, id, kind, memory);
    if id !in s'.calls {
      assert s'.calls == s.calls;
    } else if s'.calls[id].phase == Waiting {
      QueueingStrandsNobody(cfg, s, id, kind);
    }
  }

  lemma GivingBackStrandsNobody(cfg: Config, s: State, e: Event)
    requires Inv(cfg, s) && Enabled(s, e) && !Stranded(s) && !EndsSilently(e)
    requires e.Leased? || e.OpenFailed? || e.ContextClosed? || e.ReleaseLease? || e.BrowserClosed?
    ensures !Stranded(Next(cfg, s, e))
  {
    var s' := Next(cfg, s, e);
    match e
    case Leased(id, l, now, ok) =>
      var k := s.calls[id].phase.slot;
      SignalLeavesWoken(s, Vacate(Occupy(Dropped(s, id), k, 0, now), k, None));
      assert ok ==> l in s'.leases;
    case OpenFailed(id) => SignalLeavesWoken(s, Vacate(Dropped(s, id), s.calls[id].phase.slot, None));
    case ContextClosed(id, now) =>
      var k := s.calls[id].phase.slot;
      SignalLeavesWoken(s, Vacate(Dropped(s, id), k, Some(now)));
      assert k in s.browsers ==> s'.browsers == s.browsers;
    case ReleaseLease(l, now) =>
      if l in s.leases { SignalLeavesWoken(s, Vacate(s.(leases := s.leases - {l}), s.leases[l], Some(now))); }
    case BrowserClosed(k) => SignalLeavesWoken(s, s.(browsers := Without(s.browsers, k)));
  }

  lemma MovingOnStrandsNobody(cfg: Config, s: State, e: Event)
    requires Enabled(s, e) && !Stranded(s)
    requires e.LaunchOk? || e.ContextRequested? || e.Opened? || e.Release? || e.CleanupIdle?
    ensures !Stranded(Next(cfg, s, e))
  {
    var s' := Next(cfg, s, e);
    if e.CleanupIdle? {
      assert At(s'.slots, e.slot).closing;
    } else if s' != s {
      assert s'.calls[e.id].phase != Waiting;
    }
  }

  /** A step can strand the queue only by ending a call silently. */
  lemma StrandingNeedsSilentEnd(cfg: Config, s: State, e: Event)
    requires cfg.maxBrowsers >= 1 && cfg.maxContextsPerBrowser >= 1
    requires Inv(cfg, s) && Enabled(s, e) && !Stranded(s) && Stranded(Next(cfg, s, e))
    ensures EndsSilently(e)
  {
    if !EndsSilently(e) {
      match e {
        case Start(id, kind, memory) => QueueStepStrandsNobody(cfg, s, id, kind, memory);
        case Resume(id, memory) => QueueStepStrandsNobody(cfg, s, id, s.calls[id].kind, memory);
        case Leased(_, _, _, _) => GivingBackStrandsNobody(cfg, s, e);
        case OpenFailed(_) => GivingBackStrandsNobody(cfg, s, e);
        case ContextClosed(_, _) => GivingBackStrandsNobody(cfg, s, e);
        case ReleaseLease(_, _) => GivingBackStrandsNobody(cfg, s, e);
        case BrowserClosed(_) => GivingBackStrandsNobody(cfg, s, e);
        case _ => MovingOnStrandsNobody(cfg, s, e);
      }
    }
  }

  // ------------------------------------------------------------------ exactly when waiters are stranded

  /** Apart from this call nothing can signal: every other call is queued, and no signaller is left. */
  ghost predicate LastActivity(s: State, id: CallId) {
    (forall i :: i in s.calls && i != id ==> s.calls[i].phase == Waiting) && NoSignaller(s)
  }

  /**
   * The steps that strand the queue: a launch that fails, or a wake-up that meets the hard memory limit, as the
   * last activity while somebody waits; and a refused launch that queues up as the last activity.
   */
  ghost predicate Strands(cfg: Config, s: State, e: Event) {
    match e
    case LaunchFailed(id) => s.waiters != [] && LastActivity(s, id)
    case QueueAfterSkip(id) => LastActivity(s, id)
    case Resume(id, memory) =>
      && memory == HardLimit && Pick(cfg, s.browsers, s.slots).None?
      && |s.browsers| + s.launchInFlight < cfg.maxBrowsers
      && s.waiters != [] && LastActivity(s, id)
    case _ => false
  }

  lemma DroppedStrandsExactly(s: State, t: State, id: CallId)
    requires id in s.calls && t.calls == s.calls - {id} && t.waiters == s.waiters && t.leases == s.leases &&
             t.browsers == s.browsers
    requires forall k :: k in s.browsers ==> At(t.slots, k).closing == At(s.slots, k).closing
    ensures Stranded(t) <==> s.waiters != [] && LastActivity(s, id)
  {
    assert forall i :: i in t.calls <==> i in s.calls && i != id;
  }

  lemma LaunchFailureStrandsExactly(cfg: Config, s: State, id: CallId)
    requires Enabled(s, LaunchFailed(id))
    ensures Stranded(Next(cfg, s, LaunchFailed(id))) <==> Strands(cfg, s, LaunchFailed(id))
  {
    DroppedStrandsExactly(s, Next(cfg, s, LaunchFailed(id)), id);
  }

  lemma SkippedLaunchStrandsExactly(cfg: Config, s: State, id: CallId)
    requires Enabled(s, QueueAfterSkip(id))
    ensures Stranded(Next(cfg, s, QueueAfterSkip(id))) <==> Strands(cfg, s, QueueAfterSkip(id))
  {
    var t := Next(cfg, s, QueueAfterSkip(id));
    assert forall i :: i in s.calls && i != id ==> t.calls[i] == s.calls[i];
    assert forall i :: i in t.calls && i != id ==> i in s.calls && t.calls[i] == s.calls[i];
  }

  lemma HardLimitStrandsExactly(cfg: Config, s: State, id: CallId)
    requires cfg.maxBrowsers >= 1 && cfg.maxContextsPerBrowser >= 1 && Inv(cfg, s) && Enabled(s, Resume(id, HardLimit))
    ensures Stranded(Next(cfg, s, Resume(id, HardLimit))) <==> Strands(cfg, s, Resume(id, HardLimit))
  {
    var t := Next(cfg, s, Resume(id, HardLimit));
    if Pick(cfg, s.browsers, s.slots).Some? {
      assert t.calls[id].phase.Picked?;
    } else if |s.browsers| + s.launchInFlight < cfg.maxBrowsers {
      DroppedStrandsExactly(s, t, id);
    } else {
      QueueingStrandsNobody(cfg, s, id, s.calls[id].kind);
    }
  }

  /** A step from a state in which nobody is stranded strands somebody exactly under its condition. */
  lemma StrandedExactly(cfg: Config, s: State, e: Event)
    requires cfg.maxBrowsers >= 1 && cfg.maxContextsPerBrowser >= 1
    requires Inv(cfg, s) && Enabled(s, e) && !Stranded(s)
    ensures Stranded(Next(cfg, s, e)) <==> Strands(cfg, s, e)
  {
    if !EndsSilently(e) {
      if Stranded(Next(cfg, s, e)) { StrandingNeedsSilentEnd(cfg, s, e); }
    } else {
      match e
      case LaunchFailed(id) => LaunchFailureStrandsExactly(cfg, s, id);
      case QueueAfterSkip(id) => SkippedLaunchStrandsExactly(cfg, s, id);
      case Resume(id, _) => HardLimitStrandsExactly(cfg, s, id);
    }
  }

  ghost predicate EverStranded(cfg: Config, s: State, es: seq<Event>)
    requires IsRun(cfg, s, es)
    decreases |es|
  {
    Stranded(s) || (es != [] && EverStranded(cfg, Next(cfg, s, es[0]), es[1..]))
  }

  ghost predicate SomeStepStrands(cfg: Config, s: State, es: seq<Event>)
    requires IsRun(cfg, s, es)
    decreases |es|
  {
    es != [] && (Strands(cfg, s, es[0]) || SomeStepStrands(cfg, Next(cfg, s, es[0]), es[1..]))
  }

  /** A run passes through a state with stranded waiters exactly when one of its steps meets its condition. */
  lemma {:induction false} RunStrandsExactly(cfg: Config, s: State, es: seq<Event>)
    requires cfg.maxBrowsers >= 1 && cfg.maxContextsPerBrowser >= 1
    requires Inv(cfg, s) && !Stranded(s) && IsRun(cfg, s, es)
    ensures EverStranded(cfg, s, es) <==> SomeStepStrands(cfg, s, es)
    decreases |es|
  {
    if es != [] {
      var t := Next(cfg, s, es[0]);
      StepKeepsInv(cfg, s, es[0]);
      StrandedExactly(cfg, s, es[0]);
      if !Stranded(t) { RunStrandsExactly(cfg, t, es[1..]); }
    }
  }

  ghost predicate Quiet(cfg: Config, s: State, es: seq<Event>)
    requires IsRun(cfg, s, es)
    decreases |es|
  {
    es == [] || (!EndsSilently(es[0]) && Quiet(cfg, Next(cfg, s, es[0]), es[1..]))
  }

  /** No wakeup is lost in a run without launch failures or refused launches. */
  lemma {:induction false} QuietRunStrandsNobody(cfg: Config, s: State, es: seq<Event>)
    requires cfg.maxBrowsers >= 1 && cfg.maxContextsPerBrowser >= 1
    requires Inv(cfg, s) && !Stranded(s) && IsRun(cfg, s, es) && Quiet(cfg, s, es)
    ensures !Stranded(After(cfg, s, es)) && !EverStranded(cfg, s, es)
    decreases |es|
  {
    if es != [] {
      StepKeepsInv(cfg, s, es[0]);
      if Stranded(Next(cfg, s, es[0])) { StrandingNeedsSilentEnd(cfg, s, es[0]); }
      QuietRunStrandsNobody(cfg, Next(cfg, s, es[0]), es[1..]);
    }
  }

  // ------------------------------------------------------------------ what being stranded means for runs

  ghost predicate NoStart(es: seq<Event>) { forall e :: e in es ==> !e.Start? }

  lemma StrandedStepStays(cfg: Config, s: State, e: Event)
    requires Stranded(s) && Enabled(s, e) && !e.Start?
    ensures Next(cfg, s, e) == s
  {
  }

  /** From a stranded state nothing happens any more until a new call comes. */
  lemma {:induction false} StrandedForGood(cfg: Config, s: State, es: seq<Event>)
    requires Stranded(s) && IsRun(cfg, s, es) && NoStart(es)
    ensures After(cfg, s, es) == s
    decreases |es|
  {
    if es != [] {
      StrandedStepStays(cfg, s, es[0]);
      StrandedForGood(cfg, s, es[1..]);
    }
  }

  /** A call that waits, or is about to because its launch was refused. */
  predicate Parked(p: Phase) { p == Waiting || p == LaunchSkipped }

  predicate ParkedCall(s: State, id: CallId) { id in s.calls && Parked(s.calls[id].phase) }

  /** Stranded, or about to be once the refused launches have queued up. */
  ghost predicate Hopeless(s: State) {
    (forall id :: id in s.calls ==> ParkedCall(s, id)) && NoSignaller(s)
  }

  lemma HopelessStepStays(cfg: Config, s: State, e: Event)
    requires Hopeless(s) && Enabled(s, e) && !e.Start?
    ensures Hopeless(Next(cfg, s, e)) && Next(cfg, s, e).calls.Keys == s.calls.Keys
  {
  }

  lemma {:induction false} HopelessForGood(cfg: Config, s: State, es: seq<Event>)
    requires Hopeless(s) && IsRun(cfg, s, es) && NoStart(es)
    ensures Hopeless(After(cfg, s, es))
    decreases |es|
  {
    if es != [] {
      HopelessStepStays(cfg, s, es[0]);
      HopelessForGood(cfg, Next(cfg, s, es[0]), es[1..]);
    }
  }

  /** This run takes the first waiter out of the queue and wakes it. */
  ghost predicate Wakes(cfg: Config, s: State, es: seq<Event>) {
    && s.waiters != [] && IsRun(cfg, s, es) && NoStart(es)
    && After(cfg, s, es).waiters == s.waiters[1..] && InPhase(After(cfg, s, es), s.waiters[0], Woken)
  }

  ghost predicate HeadCanWake(cfg: Config, s: State) { exists es :: Wakes(cfg, s, es) }

  lemma StepThenWakes(cfg: Config, s: State, e: Event)
    requires Enabled(s, e) && !e.Start? && Next(cfg, s, e).waiters == s.waiters && HeadCanWake(cfg, Next(cfg, s, e))
    ensures HeadCanWake(cfg, s)
  {
    var es :| Wakes(cfg, Next(cfg, s, e), es);
    RunFrom(cfg, s, e, es);
    assert Wakes(cfg, s, [e] + es);
  }

  lemma SignalWakes(cfg: Config, s: State, e: Event, mid: State)
    requires Enabled(s, e) && !e.Start? && Next(cfg, s, e) == Signal(mid)
    requires mid.waiters == s.waiters != [] && InPhase(mid, s.waiters[0], Waiting)
    ensures HeadCanWake(cfg, s)
  {
    RunFrom(cfg, s, e, []);
    assert [e] + [] == [e];
    assert Wakes(cfg, s, [e]);
  }

  /** The head of a queue is there to be woken. */
  predicate Queueing(s: State) { s.waiters != [] && InPhase(s, s.waiters[0], Waiting) }

  lemma HeadWaits(s: State)
    requires QueueExact(s) && s.waiters != []
    ensures Queueing(s)
  {
    assert s.waiters[0] in s.waiters;
  }

  lemma ClosingBrowserWakes(cfg: Config, s: State, k: SlotId)
    requires Queueing(s) && k in s.browsers && At(s.slots, k).closing
    ensures HeadCanWake(cfg, s)
  {
    SignalWakes(cfg, s, BrowserClosed(k), s.(browsers := Without(s.browsers, k)));
  }

  lemma LeaseWakes(cfg: Config, s: State, l: LeaseId)
    requires Queueing(s) && l in s.leases
    ensures HeadCanWake(cfg, s)
  {
    SignalWakes(cfg, s, ReleaseLease(l, 0), Vacate(s.(leases := s.leases - {l}), s.leases[l], Some(0)));
  }

  lemma OpeningWakes(cfg: Config, s: State, id: CallId)
    requires Queueing(s) && id in s.calls && s.calls[id].phase.Opening?
    ensures HeadCanWake(cfg, s)
  {
    SignalWakes(cfg, s, OpenFailed(id), Vacate(Dropped(s, id), s.calls[id].phase.slot, None));
  }

  lemma PickedWakes(cfg: Config, s: State, id: CallId)
    requires Queueing(s) && id in s.calls && s.calls[id].phase.Picked?
    ensures HeadCanWake(cfg, s)
  {
    if s.calls[id].kind == InProcess {
      var e := ContextRequested(id, 0);
      OpeningWakes(cfg, Next(cfg, s, e), id);
      StepThenWakes(cfg, s, e);
    } else if s.leases != map[] {
      var l :| l in s.leases;
      LeaseWakes(cfg, s, l);
    } else {
      var k := s.calls[id].phase.slot;
      SignalWakes(cfg, s, Leased(id, "", 0, false), Vacate(Occupy(Dropped(s, id), k, 0, 0), k, None));
    }
  }

  lemma LaunchingWakes(cfg: Config, s: State, id: CallId)
    requires Queueing(s) && InPhase(s, id, Launching)
    ensures HeadCanWake(cfg, s)
  {
    PickedWakes(cfg, Next(cfg, s, LaunchOk(id, 0)), id);
    StepThenWakes(cfg, s, LaunchOk(id, 0));
  }

  /** A context on a listed browser: its close signals, or closes the browser. */
  lemma ClosingContextWakes(cfg: Config, s: State, id: CallId)
    requires Queueing(s) && id in s.calls && s.calls[id].phase.Closing? && s.calls[id].phase.slot in s.browsers
    ensures HeadCanWake(cfg, s)
  {
    var k, e := s.calls[id].phase.slot, ContextClosed(id, 0);
    var t := Next(cfg, s, e);
    if t.waiters == s.waiters && k in t.browsers && At(t.slots, k).closing {
      ClosingBrowserWakes(cfg, t, k);
      StepThenWakes(cfg, s, e);
    } else {
      SignalWakes(cfg, s, e, Vacate(Dropped(s, id), k, Some(0)));
    }
  }

  lemma HeldWakes(cfg: Config, s: State, id: CallId)
    requires Queueing(s) && id in s.calls && s.calls[id].phase.Held? && s.calls[id].phase.slot in s.browsers
    ensures HeadCanWake(cfg, s)
  {
    ClosingContextWakes(cfg, Next(cfg, s, Release(id)), id);
    StepThenWakes(cfg, s, Release(id));
  }

  /** A listed browser wakes somebody: closing, by its contexts and leases, or, beside another, by the idle cleanup. */
  lemma BrowserWakes(cfg: Config, s: State, k: SlotId)
    requires Queueing(s) && SlotExact(s, k) && k in s.browsers
    requires At(s.slots, k).closing || At(s.slots, k).activeContexts > 0 || |s.browsers| > 1
    ensures HeadCanWake(cfg, s)
  {
    if At(s.slots, k).closing {
      ClosingBrowserWakes(cfg, s, k);
    } else if LeasesAt(s, k) != {} {
      var l :| l in LeasesAt(s, k);
      LeaseWakes(cfg, s, l);
    } else if ContextsAt(s, k) != {} {
      var id :| id in ContextsAt(s, k);
      match s.calls[id].phase
      case Opening(_) => OpeningWakes(cfg, s, id);
      case Held(_) => HeldWakes(cfg, s, id);
      case Closing(_) => ClosingContextWakes(cfg, s, id);
    } else {
      ClosingBrowserWakes(cfg, Next(cfg, s, CleanupIdle(k)), k);
      StepThenWakes(cfg, s, CleanupIdle(k));
    }
  }

  lemma ClosingWakes(cfg: Config, s: State, id: CallId)
    requires Inv(cfg, s) && Queueing(s) && id in s.calls && s.calls[id].phase.Closing?
    ensures HeadCanWake(cfg, s)
  {
    var k := s.calls[id].phase.slot;
    if k in s.browsers {
      ClosingContextWakes(cfg, s, id);
    } else if |s.browsers| > 1 {
      assert SlotExact(s, s.browsers[0]);
      BrowserWakes(cfg, s, s.browsers[0]);
    } else {
      SignalWakes(cfg, s, ContextClosed(id, 0), Vacate(Dropped(s, id), k, Some(0)));
    }
  }

  lemma ReleasedWakes(cfg: Config, s: State, id: CallId)
    requires Inv(cfg, s) && Queueing(s) && id in s.calls && s.calls[id].phase.Held?
    ensures HeadCanWake(cfg, s)
  {
    StepKeepsInv(cfg, s, Release(id));
    ClosingWakes(cfg, Next(cfg, s, Release(id)), id);
    StepThenWakes(cfg, s, Release(id));
  }

  /** A woken call finds room, or everything is busy. */
  lemma WokenWakes(cfg: Config, s: State, id: CallId)
    requires cfg.maxBrowsers >= 1 && cfg.maxContextsPerBrowser >= 1
    requires Inv(cfg, s) && Queueing(s) && InPhase(s, id, Woken)
    ensures HeadCanWake(cfg, s)
  {
    var e := Resume(id, Plenty);
    if Pick(cfg, s.browsers, s.slots).Some? {
      PickedWakes(cfg, Next(cfg, s, e), id);
      StepThenWakes(cfg, s, e);
    } else if |s.browsers| + s.launchInFlight < cfg.maxBrowsers {
      LaunchingWakes(cfg, Next(cfg, s, e), id);
      StepThenWakes(cfg, s, e);
    } else if s.launchInFlight > 0 {
      var i :| i in Launches(s);
      LaunchingWakes(cfg, s, i);
    } else {
      assert s.browsers[0] in s.browsers && SlotExact(s, s.browsers[0]);
      BrowserWakes(cfg, s, s.browsers[0]);
    }
  }

  /** Whatever is left in the engine can wake the first waiter. */
  lemma HeadWakes(cfg: Config, s: State)
    requires cfg.maxBrowsers >= 1 && cfg.maxContextsPerBrowser >= 1
    requires Inv(cfg, s) && s.waiters != [] && !Hopeless(s)
    ensures HeadCanWake(cfg, s)
  {
    HeadWaits(s);
    if id :| id in s.calls && !ParkedCall(s, id) {
      match s.calls[id].phase
      case Woken => WokenWakes(cfg, s, id);
      case Launching => LaunchingWakes(cfg, s, id);
      case Picked(_) => PickedWakes(cfg, s, id);
      case Opening(_) => OpeningWakes(cfg, s, id);
      case Held(_) => ReleasedWakes(cfg, s, id);
      case Closing(_) => ClosingWakes(cfg, s, id);
    } else if s.leases != map[] {
      var l :| l in s.leases;
      LeaseWakes(cfg, s, l);
    } else if |s.browsers| > 1 {
      assert SlotExact(s, s.browsers[0]);
      BrowserWakes(cfg, s, s.browsers[0]);
    } else {
      var k :| k in s.browsers && At(s.slots, k).closing;
      ClosingBrowserWakes(cfg, s, k);
    }
  }

  /** Some run without new calls wakes this call. */
  ghost predicate CanWake(cfg: Config, s: State, id: CallId) {
    exists es :: IsRun(cfg, s, es) && NoStart(es) && InPhase(After(cfg, s, es), id, Woken)
  }

  lemma {:induction false} RunThenWakes(cfg: Config, s: State, es: seq<Event>, id: CallId)
    requires IsRun(cfg, s, es) && NoStart(es) && CanWake(cfg, After(cfg, s, es), id)
    ensures CanWake(cfg, s, id)
    decreases |es|
  {
    if es != [] {
      RunThenWakes(cfg, Next(cfg, s, es[0]), es[1..], id);
      var more :| IsRun(cfg, Next(cfg, s, es[0]), more) && NoStart(more) &&
        InPhase(After(cfg, Next(cfg, s, es[0]), more), id, Woken);
      RunFrom(cfg, s, es[0], more);
      assert NoStart([es[0]] + more);
    }
  }

  /** The calls in front of a waiter are woken one by one, and each of them keeps the engine going. */
  lemma {:induction false} WaiterWakes(cfg: Config, s: State, i: nat)
    requires cfg.maxBrowsers >= 1 && cfg.maxContextsPerBrowser >= 1
    requires Inv(cfg, s) && i < |s.waiters| && !Hopeless(s)
    ensures CanWake(cfg, s, s.waiters[i])
    decreases i
  {
    HeadWakes(cfg, s);
    var es :| Wakes(cfg, s, es);
    var t := After(cfg, s, es);
    if i > 0 {
      RunKeepsInv(cfg, s, es);
      assert !ParkedCall(t, s.waiters[0]);
      WaiterWakes(cfg, t, i - 1);
      RunThenWakes(cfg, s, es, s.waiters[i]);
    }
  }

  /**
   * For every queued call, and every call about to queue: some run without new calls wakes it, exactly when the state
   * is not stranded, nor about to be.
   */
  lemma WakeableExactly(cfg: Config, s: State, id: CallId)
    requires cfg.maxBrowsers >= 1 && cfg.maxContextsPerBrowser >= 1 && Inv(cfg, s) && ParkedCall(s, id)
    ensures CanWake(cfg, s, id) <==> !Hopeless(s)
  {
    if Hopeless(s) {
      forall es | IsRun(cfg, s, es) && NoStart(es) ensures !InPhase(After(cfg, s, es), id, Woken) {
        HopelessForGood(cfg, s, es);
      }
    } else if s.calls[id].phase == Waiting {
      assert id in s.waiters;
      var i :| 0 <= i < |s.waiters| && s.waiters[i] == id;
      WaiterWakes(cfg, s, i);
    } else {
      var e := QueueAfterSkip(id);
      var t := Next(cfg, s, e);
      StepKeepsInv(cfg, s, e);
      assert t.waiters[|s.waiters|] == id;
      QueueingKeepsHope(cfg, s, id);
      WaiterWakes(cfg, t, |s.waiters|);
      RunFrom(cfg, s, e, []);
      RunThenWakes(cfg, s, [e] + [], id);
    }
  }

  lemma QueueingKeepsHope(cfg: Config, s: State, id: CallId)
    requires Enabled(s, QueueAfterSkip(id)) && !Hopeless(s)
    ensures !Hopeless(Next(cfg, s, QueueAfterSkip(id)))
  {
    if i :| i in s.calls && !ParkedCall(s, i) { assert !ParkedCall(Next(cfg, s, QueueAfterSkip(id)), i); }
  }

  /** Without refused launches under way, that is: every waiting call can be woken exactly when nobody is stranded. */
  lemma WaitersWakeExactly(cfg: Config, s: State, id: CallId)
    requires cfg.maxBrowsers >= 1 && cfg.maxContextsPerBrowser >= 1 && Inv(cfg, s) && InPhase(s, id, Waiting)
    requires forall i :: i in s.calls ==> s.calls[i].phase != LaunchSkipped
    ensures CanWake(cfg, s, id) <==> !Stranded(s)
  {
    WakeableExactly(cfg, s, id);
    assert id in s.waiters;
    if Hopeless(s) {
      forall i | i in s.calls ensures s.calls[i].phase == Waiting { assert ParkedCall(s, i); }
    }
  }

  // ------------------------------------------------------------------ every pool can strand a waiter

  /** n calls launching, in a fresh engine. */
  function LaunchingCalls(n: nat): (calls: map<CallId, Call>)
    ensures forall i: nat :: i in calls <==> i < n
  {
    if n == 0 then map[] else LaunchingCalls(n - 1)[n - 1 := Call(InProcess, Launching)]
  }

  function AllLaunching(n: nat): State { State([], map[], [], map[], n, 1, LaunchingCalls(n)) }

  /** What is left of n launches once all but the first m have failed, with a call waiting behind them. */
  function Failing(n: nat, m: nat): State {
    State([], map[], [n], map[], m, 1, LaunchingCalls(m)[n := Call(InProcess, Waiting)])
  }

  /** From m launches to n of them, from where the run may go on. */
  lemma {:induction false} StartLaunches(cfg: Config, m: nat, n: nat, rest: seq<Event>, end: State)
    returns (es: seq<Event>)
    requires m <= n <= cfg.maxBrowsers && Reaches(cfg, AllLaunching(n), rest, end)
    ensures Reaches(cfg, AllLaunching(m), es, end)
    decreases n - m
  {
    if m == n {
      es := rest;
    } else {
      var e := Start(m, InProcess, Plenty);
      var more := StartLaunches(cfg, m + 1, n, rest, end);
      assert Next(cfg, AllLaunching(m), e) == AllLaunching(m + 1);
      RunFrom(cfg, AllLaunching(m), e, more);
      es := [e] + more;
    }
  }

  /** The run es leads from s to t. */
  ghost predicate Reaches(cfg: Config, s: State, es: seq<Event>, t: State) {
    IsRun(cfg, s, es) && After(cfg, s, es) == t
  }

  lemma ReachesCons(cfg: Config, s: State, e: Event, es: seq<Event>, t: State)
    requires Enabled(s, e) && Reaches(cfg, Next(cfg, s, e), es, t)
    ensures Reaches(cfg, s, [e] + es, t)
  {
    RunFrom(cfg, s, e, es);
  }

  lemma OneLaunchFails(cfg: Config, n: nat, m: nat)
    requires 0 < m <= n
    ensures var e := LaunchFailed(m - 1);
            Enabled(Failing(n, m), e) && Next(cfg, Failing(n, m), e) == Failing(n, m - 1)
  {
    var kept := LaunchingCalls(m - 1)[n := Call(InProcess, Waiting)];
    assert LaunchingCalls(m) == LaunchingCalls(m - 1)[m - 1 := Call(InProcess, Launching)];
    assert LaunchingCalls(m)[n := Call(InProcess, Waiting)] - {m - 1} == kept;
  }

  lemma {:induction false} LaunchesFail(cfg: Config, n: nat, m: nat) returns (es: seq<Event>)
    requires 0 <= m <= n
    ensures Reaches(cfg, Failing(n, m), es, Failing(n, 0))
    decreases m
  {
    if m == 0 {
      es := [];
    } else {
      var e := LaunchFailed(m - 1);
      var rest := LaunchesFail(cfg, n, m - 1);
      OneLaunchFails(cfg, n, m);
      ReachesCons(cfg, Failing(n, m), e, rest, Failing(n, 0));
      es := [e] + rest;
    }
  }

  /**
   * Whatever the number of browsers allowed, there is a run that strands a caller: it queues behind as many launches
   * as are allowed, and all of them fail.
   */
  lemma FailedLaunchesStrandWaiter(cfg: Config) returns (es: seq<Event>)
    requires cfg.maxBrowsers >= 1
    ensures IsRun(cfg, INITIAL, es) && Stranded(After(cfg, INITIAL, es))
  {
    var n := cfg.maxBrowsers;
    var fails := LaunchesFail(cfg, n, n);
    var queue := Start(n, InProcess, Plenty);
    assert Next(cfg, AllLaunching(n), queue) == Failing(n, n) by { assert [] + [n] == [n]; }
    RunFrom(cfg, AllLaunching(n), queue, fails);
    es := StartLaunches(cfg, 0, n, [queue] + fails, Failing(n, 0));
    assert AllLaunching(0) == INITIAL;
  }

  // ------------------------------------------------------------------ the engine object

  /** The closure variables of createPoolEngine, updated in place by its functions. */
  class PoolEngine {
    const cfg: Config
    var browsers: seq<SlotId>
    var slots: map<SlotId, Slot>
    var waiters: seq<CallId>
    var leases: map<LeaseId, SlotId>
    var launchInFlight: int
    var nextId: SlotId
    var calls: map<CallId, Call>

    function Engine(): (s: State) reads this { State(browsers, slots, waiters, leases, launchInFlight, nextId, calls) }

    constructor (cfg: Config)
      ensures Engine() == INITIAL && this.cfg == cfg
    {
      this.cfg := cfg;
      browsers, slots, waiters, leases, launchInFlight, nextId, calls := [], map[], [], map[], 0, 1, map[];
    }

    method SignalNextWaiter()
      modifies this`waiters, this`calls
      ensures Engine() == Signal(old(Engine()))
    {
      if |waiters| > 0 {
        var id := waiters[0];
        waiters := waiters[1..];
        if id in calls && calls[id].phase == Waiting {
          calls := calls[id := calls[id].(phase := Woken)];
        }
      }
    }

    /** One turn of the loop in pickOrCreateSlot, launchBrowserSlot up to its await included. */
    method PickOrCreateSlot(id: CallId, kind: Kind, memory: Memory)
      modifies this
      ensures Engine() == LoopTurn(cfg, old(Engine()), id, kind, memory)
    {
      var reusable := Pick(cfg, browsers, slots);
      if reusable.Some? {
        calls := calls[id := Call(kind, Picked(reusable.value))];
        return;
      }
      if |browsers| + launchInFlight < cfg.maxBrowsers {
        match memory {
          case HardLimit => calls := calls - {id};
          case SoftLimit => calls := calls[id := Call(kind, LaunchSkipped)];
          case Plenty =>
            launchInFlight := launchInFlight + 1;
            calls := calls[id := Call(kind, Launching)];
        }
      } else {
        waiters := waiters + [id];
        calls := calls[id := Call(kind, Waiting)];
      }
    }

    method LaunchSettled(id: CallId, ok: bool, now: int)
      requires Enabled(Engine(), LaunchOk(id, now))
      modifies this
      ensures Engine() == Next(cfg, old(Engine()), if ok then LaunchOk(id, now) else LaunchFailed(id))
    {
      if ok {
        slots := slots[nextId := Slot(0, 0, now, false)];
        browsers := browsers + [nextId];
        calls := calls[id := calls[id].(phase := Picked(nextId))];
        nextId := nextId + 1;
      } else {
        calls := calls - {id};
      }
      launchInFlight := Max(0, launchInFlight - 1);
    }

    method VacateSlot(k: SlotId, now: Option<int>)
      modifies this`slots
      ensures Engine() == Vacate(old(Engine()), k, now)
    {
      var slot := At(slots, k);
      slot := slot.(activeContexts := Max(0, slot.activeContexts - 1));
      if now.Some? { slot := slot.(lastUsedAt := now.value); }
      slots := slots[k := slot];
    }

    /** acquireContext after its slot is known, up to newContext. */
    method RequestContext(id: CallId, now: int)
      requires Enabled(Engine(), ContextRequested(id, now))
      modifies this
      ensures Engine() == Next(cfg, old(Engine()), ContextRequested(id, now))
    {
      var k := calls[id].phase.slot;
      var slot := At(slots, k);
      slot := slot.(activeContexts := slot.activeContexts + 1, createdContexts := slot.createdContexts + 1);
      slots := slots[k := slot.(lastUsedAt := now)];
      calls := calls[id := Call(InProcess, Opening(k))];
    }

    method ContextSettled(id: CallId, ok: bool)
      requires Enabled(Engine(), Opened(id))
      modifies this
      ensures Engine() == Next(cfg, old(Engine()), if ok then Opened(id) else OpenFailed(id))
    {
      var k := calls[id].phase.slot;
      if ok {
        calls := calls[id := calls[id].(phase := Held(k))];
      } else {
        calls := calls - {id};
        VacateSlot(k, None);
        SignalNextWaiter();
      }
    }

    /** leaseRemoteBrowser after its slot is known; wsEndpoint() may throw. */
    method LeaseRemoteBrowser(id: CallId, leaseId: LeaseId, now: int, endpointOk: bool)
      requires Enabled(Engine(), Leased(id, leaseId, now, endpointOk))
      modifies this
      ensures Engine() == Next(cfg, old(Engine()), Leased(id, leaseId, now, endpointOk))
    {
      var k := calls[id].phase.slot;
      calls := calls - {id};
      var slot := At(slots, k);
      slots := slots[k := slot.(activeContexts := slot.activeContexts + 1, lastUsedAt := now)];
      ghost var before := leases;
      leases := leases[leaseId := k];
      if !endpointOk {
        VacateSlot(k, None);
        leases := leases - {leaseId};
        assert leases == before;
        SignalNextWaiter();
      }
    }

    method ReleaseRemoteLease(leaseId: LeaseId, now: int) returns (known: bool)
      modifies this
      ensures known <==> leaseId in old(leases)
      ensures Engine() == Next(cfg, old(Engine()), ReleaseLease(leaseId, now))
    {
      known := leaseId in leases;
      if known {
        var k := leases[leaseId];
        leases := leases - {leaseId};
        VacateSlot(k, Some(now));
        SignalNextWaiter();
      }
    }

    /** Marks a slot closing; the answer tells whether this call is the one that closes the browser. */
    method CloseBrowserSlot(k: SlotId) returns (closes: bool)
      modifies this`slots
      ensures closes <==> !At(old(slots), k).closing
      ensures Engine() == if closes then StartClosing(old(Engine()), k) else old(Engine())
    {
      if At(slots, k).closing { return false; }
      slots := slots[k := At(slots, k).(closing := true)];
      closes := true;
    }

    /** The rest of release() once context.close() has settled either way. */
    method ContextCloseSettled(id: CallId, now: int)
      requires Enabled(Engine(), ContextClosed(id, now))
      modifies this
      ensures Engine() == Next(cfg, old(Engine()), ContextClosed(id, now))
    {
      var k := calls[id].phase.slot;
      calls := calls - {id};
      VacateSlot(k, Some(now));
      var slot := At(slots, k);
      if slot.activeContexts == 0 && slot.createdContexts >= cfg.recycleUses && |browsers| > 1 {
        var closes := CloseBrowserSlot(k);
      } else {
        SignalNextWaiter();
      }
    }

    method BrowserCloseSettled(k: SlotId)
      requires Enabled(Engine(), BrowserClosed(k))
      modifies this
      ensures Engine() == Next(cfg, old(Engine()), BrowserClosed(k))
    {
      browsers := Without(browsers, k);
      SignalNextWaiter();
    }
  }
}
