/**
 * Per-tenant in-process browser quota (apps/worker-ingest/src/lib/tenantQuota.js).
 *
 * JavaScript runs each stretch of code between two awaits without interruption, so
 * one Event below is one such stretch and any sequence of enabled events is a run.
 */
module TenantQuota {
  import opened Basics

  type Tenant = string
  type CallId = nat

  // ------------------------------------------------------------------ configuration

  /** The parsed BROWSER_POOL_QUOTAS_JSON object (numeric entries) and the scalar fallback. */
  datatype Config = Config(quotas: map<string, real>, scalar: Option<real>)

  function QuotaFor(cfg: Config, tenant: Tenant): nat {
    if tenant in cfg.quotas && cfg.quotas[tenant] > 0.0 then cfg.quotas[tenant].Floor
    else if "default" in cfg.quotas && cfg.quotas["default"] > 0.0 then cfg.quotas["default"].Floor
    else if cfg.scalar.Some? && cfg.scalar.value > 0.0 then cfg.scalar.value.Floor
    else 0
  }

  /** The configured limits that apply to a tenant, strongest first. */
  function Candidates(cfg: Config, tenant: Tenant): seq<real> {
    (if tenant in cfg.quotas then [cfg.quotas[tenant]] else []) +
    (if "default" in cfg.quotas then [cfg.quotas["default"]] else []) +
    (if cfg.scalar.Some? then [cfg.scalar.value] else [])
  }

  ghost predicate FirstPositive(c: seq<real>, i: nat) {
    i < |c| && c[i] > 0.0 && forall j :: 0 <= j < i ==> c[j] <= 0.0
  }

  /** The quota is the first positive candidate rounded down, and there is none without one. */
  lemma QuotaIsFirstPositive(cfg: Config, tenant: Tenant)
    ensures forall i: nat :: FirstPositive(Candidates(cfg, tenant), i)
                             ==> QuotaFor(cfg, tenant) == Candidates(cfg, tenant)[i].Floor
    ensures (forall x :: x in Candidates(cfg, tenant) ==> x <= 0.0) ==> QuotaFor(cfg, tenant) == 0
  {
    var c := Candidates(cfg, tenant);
    assert |c| > 0 ==> c[0] in c;
    assert |c| > 1 ==> c[1] in c;
    assert |c| > 2 ==> c[2] in c;
    forall i: nat | FirstPositive(c, i) ensures QuotaFor(cfg, tenant) == c[i].Floor {
      assert c[0] <= 0.0 || i == 0;
      assert |c| > 1 ==> c[1] <= 0.0 || i <= 1;
    }
  }

  /**
   * The quota is switched off exactly when no candidate is positive or the first positive
   * one is below one. So a fractional entry switches it off even when "default" is larger.
   */
  lemma QuotaDisabledExactly(cfg: Config, tenant: Tenant)
    ensures QuotaFor(cfg, tenant) == 0 <==>
            forall i: nat :: FirstPositive(Candidates(cfg, tenant), i) ==> Candidates(cfg, tenant)[i] < 1.0
  {
    var c := Candidates(cfg, tenant);
    QuotaIsFirstPositive(cfg, tenant);
    if i: nat :| FirstPositive(c, i) {
      assert forall k: nat :: FirstPositive(c, k) ==> k == i;
    } else {
      assert |c| > 0 ==> !FirstPositive(c, 0);
      assert |c| > 1 ==> !FirstPositive(c, 1);
      assert |c| > 2 ==> !FirstPositive(c, 2);
    }
  }

  // ------------------------------------------------------------------ state and steps

  /** Where a withQuota call is suspended. */
  datatype Phase =
    | Waiting    // its resolver is in the tenant's waiter list
    | Woken      // its promise is resolved, the loop head has not run again yet
    | Acquiring  // counted, awaiting acquire()
    | Holding    // counted, the handle belongs to the caller
    | Releasing  // counted, awaiting the original release()

  datatype Call = Call(tenant: Tenant, phase: Phase, rejectFast: bool)

  datatype State = State(
    active: map<Tenant, int>,
    rejections: map<Tenant, nat>,
    waiters: map<Tenant, seq<CallId>>,
    calls: map<CallId, Call>)

  datatype Event =
    | Start(id: CallId, tenant: Tenant, rejectFast: bool)
    | Resume(id: CallId)
    | Timeout(id: CallId)
    | Acquired(id: CallId)
    | AcquireFailed(id: CallId)
    | ReleaseCalled(id: CallId)
    | ReleaseSettled(id: CallId)

  const INITIAL := State(map[], map[], map[], map[])

  function Active(s: State, t: Tenant): int { if t in s.active then s.active[t] else 0 }

  function Rejections(s: State, t: Tenant): nat { if t in s.rejections then s.rejections[t] else 0 }

  function Queue(s: State, t: Tenant): seq<CallId> { if t in s.waiters then s.waiters[t] else [] }

  function Reject(s: State, id: CallId, t: Tenant): State {
    s.(rejections := s.rejections[t := Rejections(s, t) + 1], calls := s.calls - {id})
  }

  /** The loop head: enter, reject fast, or queue up (again). */
  function LoopHead(cfg: Config, s: State, id: CallId, c: Call): State {
    var t := c.tenant;
    if Active(s, t) >= QuotaFor(cfg, t) then
      if c.rejectFast then Reject(s, id, t)
      else s.(waiters := s.waiters[t := Queue(s, t) + [id]], calls := s.calls[id := c.(phase := Waiting)])
    else
      s.(active := s.active[t := Active(s, t) + 1], calls := s.calls[id := c.(phase := Acquiring)])
  }

  /** Shifts the first resolver; calling it does nothing when its promise is settled. */
  function Signal(s: State, t: Tenant): State {
    var q := Queue(s, t);
    if q == [] then s
    else
      s.(waiters := s.waiters[t := q[1..]],
         calls := if q[0] in s.calls && s.calls[q[0]].phase == Waiting
                  then s.calls[q[0] := s.calls[q[0]].(phase := Woken)] else s.calls)
  }

  function Decrement(s: State, t: Tenant): State {
    Signal(s.(active := s.active[t := Max(0, Active(s, t) - 1)]), t)
  }

  predicate InPhase(s: State, id: CallId, p: Phase) { id in s.calls && s.calls[id].phase == p }

  predicate Enabled(s: State, e: Event) {
    match e
    case Start(id, _, _) => id !in s.calls
    case Resume(id) => InPhase(s, id, Woken)
    case Timeout(id) => InPhase(s, id, Waiting)
    case Acquired(id) => InPhase(s, id, Acquiring)
    case AcquireFailed(id) => InPhase(s, id, Acquiring)
    case ReleaseCalled(id) => InPhase(s, id, Holding)
    case ReleaseSettled(id) => InPhase(s, id, Releasing)
  }

  function Next(cfg: Config, s: State, e: Event): State
    requires Enabled(s, e)
  {
    match e
    case Start(id, t, rejectFast) =>
      if QuotaFor(cfg, t) == 0 then s else LoopHead(cfg, s, id, Call(t, Woken, rejectFast))
    case Resume(id) => LoopHead(cfg, s, id, s.calls[id])
    case Timeout(id) =>
      var t := s.calls[id].tenant;
      Reject(s.(waiters := s.waiters[t := Without(Queue(s, t), id)]), id, t)
    case Acquired(id) => s.(calls := s.calls[id := s.calls[id].(phase := Holding)])
    case ReleaseCalled(id) => s.(calls := s.calls[id := s.calls[id].(phase := Releasing)])
    case AcquireFailed(id) => Decrement(s.(calls := s.calls - {id}), s.calls[id].tenant)
    case ReleaseSettled(id) => Decrement(s.(calls := s.calls - {id}), s.calls[id].tenant)
  }

  ghost predicate IsRun(cfg: Config, s: State, es: seq<Event>)
    decreases |es|
  {
    es == [] || (Enabled(s, es[0]) && IsRun(cfg, Next(cfg, s, es[0]), es[1..]))
  }

  ghost function After(cfg: Config, s: State, es: seq<Event>): State
    requires IsRun(cfg, s, es)
    decreases |es|
  {
    if es == [] then s else After(cfg, Next(cfg, s, es[0]), es[1..])
  }

  // ------------------------------------------------------------------ invariant

  predicate CountsAgainstQuota(p: Phase) { p == Acquiring || p == Holding || p == Releasing }

  ghost function Counted(s: State, t: Tenant): set<CallId> {
    set id | id in s.calls && s.calls[id].tenant == t && CountsAgainstQuota(s.calls[id].phase)
  }

  ghost function WokenCalls(s: State, t: Tenant): set<CallId> {
    set id | id in s.calls && s.calls[id].tenant == t && s.calls[id].phase == Woken
  }

  /** The waiter list holds exactly the unsettled waiting calls of the tenant, each once. */
  ghost predicate QueueExact(s: State, t: Tenant) {
    && NoDuplicates(Queue(s, t))
    && (forall id :: id in Queue(s, t) <==> id in s.calls && s.calls[id] == Call(t, Waiting, false))
  }

  ghost predicate TenantInv(cfg: Config, s: State, t: Tenant) {
    && Active(s, t) == |Counted(s, t)| <= QuotaFor(cfg, t)
    && QueueExact(s, t)
    && (Queue(s, t) != [] ==> Active(s, t) + |WokenCalls(s, t)| >= QuotaFor(cfg, t))
  }

  ghost predicate Inv(cfg: Config, s: State) {
    && (forall t :: TenantInv(cfg, s, t))
    && CallInv(cfg, s)
  }

  ghost predicate SameExcept(m: map<CallId, Call>, m': map<CallId, Call>, id: CallId) {
    forall i :: i != id ==> (i in m' <==> i in m) && (i in m ==> m'[i] == m[i])
  }

  ghost predicate IsCounted(s: State, id: CallId, t: Tenant) {
    id in s.calls && s.calls[id].tenant == t && CountsAgainstQuota(s.calls[id].phase)
  }

  ghost predicate IsWoken(s: State, id: CallId, t: Tenant) {
    id in s.calls && s.calls[id].tenant == t && s.calls[id].phase == Woken
  }

  /** When one call moves, the two head counts of a tenant change by that call alone. */
  lemma OneCallMoved(s: State, s': State, id: CallId, t: Tenant)
    requires SameExcept(s.calls, s'.calls, id)
    ensures |Counted(s', t)| - (if IsCounted(s', id, t) then 1 else 0) ==
            |Counted(s, t)| - (if IsCounted(s, id, t) then 1 else 0)
    ensures |WokenCalls(s', t)| - (if IsWoken(s', id, t) then 1 else 0) ==
            |WokenCalls(s, t)| - (if IsWoken(s, id, t) then 1 else 0)
  {
    SameButOne(Counted(s, t), Counted(s', t), id);
    SameButOne(WokenCalls(s, t), WokenCalls(s', t), id);
  }

  ghost predicate CallInv(cfg: Config, s: State) {
    forall id :: id in s.calls ==>
      QuotaFor(cfg, s.calls[id].tenant) > 0 && (s.calls[id].phase in {Waiting, Woken} ==> !s.calls[id].rejectFast)
  }

  lemma EnterKeepsTenant(cfg: Config, s: State, s': State, id: CallId, t: Tenant)
    requires TenantInv(cfg, s, t) && SameExcept(s.calls, s'.calls, id)
    requires s'.waiters == s.waiters && !InPhase(s, id, Waiting) && !InPhase(s', id, Waiting)
    requires Active(s', t) - Active(s, t) ==
             (if IsCounted(s', id, t) then 1 else 0) - (if IsCounted(s, id, t) then 1 else 0)
    requires Active(s', t) <= QuotaFor(cfg, t)
    requires Queue(s, t) == [] || Active(s, t) >= QuotaFor(cfg, t) || !IsWoken(s, id, t) || IsCounted(s', id, t)
    requires Active(s', t) >= Active(s, t)
    ensures TenantInv(cfg, s', t)
  {
    OneCallMoved(s, s', id, t);
    assert Queue(s', t) == Queue(s, t);
  }

  lemma LoopHeadKeepsTenant(cfg: Config, s: State, id: CallId, c: Call, t: Tenant)
    requires TenantInv(cfg, s, t) && c.phase == Woken
    requires id in s.calls ==> s.calls[id] == c
    ensures TenantInv(cfg, LoopHead(cfg, s, id, c), t)
  {
    var s' := LoopHead(cfg, s, id, c);
    if Active(s, c.tenant) >= QuotaFor(cfg, c.tenant) && !c.rejectFast {
      OneCallMoved(s, s', id, t);
      assert id !in Queue(s, t);
      assert Queue(s', t) == if t == c.tenant then Queue(s, t) + [id] else Queue(s, t);
    } else {
      EnterKeepsTenant(cfg, s, s', id, t);
    }
  }

  lemma TimeoutKeepsTenant(cfg: Config, s: State, id: CallId, t: Tenant)
    requires TenantInv(cfg, s, t) && Enabled(s, Timeout(id))
    ensures TenantInv(cfg, Next(cfg, s, Timeout(id)), t)
  {
    var s' := Next(cfg, s, Timeout(id));
    OneCallMoved(s, s', id, t);
    if t == s.calls[id].tenant {
      WithoutRemovesOne(Queue(s, t), id);
      assert Queue(s', t) == Without(Queue(s, t), id);
    } else {
      assert Queue(s', t) == Queue(s, t);
    }
  }

  lemma PhaseOnlyKeepsTenant(cfg: Config, s: State, id: CallId, p: Phase, t: Tenant)
    requires TenantInv(cfg, s, t)
    requires id in s.calls && CountsAgainstQuota(s.calls[id].phase) && CountsAgainstQuota(p)
    ensures TenantInv(cfg, s.(calls := s.calls[id := s.calls[id].(phase := p)]), t)
  {
    var s' := s.(calls := s.calls[id := s.calls[id].(phase := p)]);
    OneCallMoved(s, s', id, t);
    assert Queue(s', t) == Queue(s, t);
  }

  /**
   * Giving a slot back: the counter really falls by one (the clamp at zero never acts), and
   * the head of the queue, if any, is an unsettled call that this very step wakes.
   */
  lemma DecrementHandsOver(cfg: Config, s: State, id: CallId)
    requires id in s.calls && CountsAgainstQuota(s.calls[id].phase)
    requires TenantInv(cfg, s, s.calls[id].tenant)
    ensures var t := s.calls[id].tenant;
            var s' := Decrement(s.(calls := s.calls - {id}), t);
            && Active(s', t) == Active(s, t) - 1 >= 0
            && (Queue(s, t) == [] ==> Queue(s', t) == [])
            && (Queue(s, t) != [] ==> Queue(s', t) == Queue(s, t)[1..] && InPhase(s', Queue(s, t)[0], Woken))
  {
    var t := s.calls[id].tenant;
    assert id in Counted(s, t);
    assert Queue(s, t) != [] ==> Queue(s, t)[0] in Queue(s, t);
  }

  lemma DecrementKeepsTenant(cfg: Config, s: State, id: CallId, u: Tenant)
    requires id in s.calls && CountsAgainstQuota(s.calls[id].phase)
    requires TenantInv(cfg, s, s.calls[id].tenant) && TenantInv(cfg, s, u)
    ensures TenantInv(cfg, Decrement(s.(calls := s.calls - {id}), s.calls[id].tenant), u)
  {
    var t := s.calls[id].tenant;
    var mid := s.(calls := s.calls - {id}, active := s.active[t := Max(0, Active(s, t) - 1)]);
    var s' := Signal(mid, t);
    DecrementHandsOver(cfg, s, id);
    OneCallMoved(s, mid, id, u);
    var q := Queue(s, t);
    if q != [] {
      assert q[0] in q;
      OneCallMoved(mid, s', q[0], u);
      QueueAfterSignal(s, id, u);
    } else {
      assert s' == mid && Queue(mid, u) == Queue(s, u);
    }
  }

  lemma QueueAfterSignal(s: State, id: CallId, u: Tenant)
    requires id in s.calls && CountsAgainstQuota(s.calls[id].phase)
    requires QueueExact(s, s.calls[id].tenant) && QueueExact(s, u) && Queue(s, s.calls[id].tenant) != []
    ensures QueueExact(Decrement(s.(calls := s.calls - {id}), s.calls[id].tenant), u)
  {
    var t := s.calls[id].tenant;
    var s' := Decrement(s.(calls := s.calls - {id}), t);
    var q := Queue(s, t);
    assert q[0] in q;
    if u == t {
      assert q == [q[0]] + Queue(s', t);
      assert q[0] !in Queue(s', t);
    } else {
      assert Queue(s', u) == Queue(s, u);
    }
  }

  lemma StepKeepsTenant(cfg: Config, s: State, e: Event, t: Tenant)
    requires Inv(cfg, s) && Enabled(s, e)
    ensures TenantInv(cfg, Next(cfg, s, e), t)
  {
    assert TenantInv(cfg, s, t);
    match e
    case Start(id, u, rejectFast) =>
      if QuotaFor(cfg, u) > 0 { LoopHeadKeepsTenant(cfg, s, id, Call(u, Woken, rejectFast), t); }
    case Resume(id) => LoopHeadKeepsTenant(cfg, s, id, s.calls[id], t);
    case Timeout(id) => TimeoutKeepsTenant(cfg, s, id, t);
    case Acquired(id) => PhaseOnlyKeepsTenant(cfg, s, id, Holding, t);
    case ReleaseCalled(id) => PhaseOnlyKeepsTenant(cfg, s, id, Releasing, t);
    case AcquireFailed(id) => assert TenantInv(cfg, s, s.calls[id].tenant); DecrementKeepsTenant(cfg, s, id, t);
    case ReleaseSettled(id) => assert TenantInv(cfg, s, s.calls[id].tenant); DecrementKeepsTenant(cfg, s, id, t);
  }

  /** Every step keeps safety, conservation and the absence of lost wakeups. */
  lemma StepKeepsCalls(cfg: Config, s: State, e: Event)
    requires Inv(cfg, s) && Enabled(s, e)
    ensures CallInv(cfg, Next(cfg, s, e))
  {
  }

  lemma StepKeepsInv(cfg: Config, s: State, e: Event)
    requires Inv(cfg, s) && Enabled(s, e)
    ensures Inv(cfg, Next(cfg, s, e))
  {
    forall t ensures TenantInv(cfg, Next(cfg, s, e), t) {
      StepKeepsTenant(cfg, s, e, t);
    }
    StepKeepsCalls(cfg, s, e);
  }

  /** Safety, conservation and no lost wakeup hold after every run from the empty table. */
  lemma {:induction false} RunKeepsInv(cfg: Config, s: State, es: seq<Event>)
    requires Inv(cfg, s) && IsRun(cfg, s, es)
    ensures Inv(cfg, After(cfg, s, es))
    decreases |es|
  {
    if es == [] {
    } else {
      StepKeepsInv(cfg, s, es[0]);
      RunKeepsInv(cfg, Next(cfg, s, es[0]), es[1..]);
    }
  }

  /** The limit a tenant's calls meet, read off the configuration: its i-th candidate, at least one. */
  ghost predicate LimitedBy(cfg: Config, t: Tenant, i: nat) {
    FirstPositive(Candidates(cfg, t), i) && Candidates(cfg, t)[i] >= 1.0
  }

  lemma InitialInv(cfg: Config)
    ensures Inv(cfg, INITIAL)
  {
    forall t ensures TenantInv(cfg, INITIAL, t) {
      assert Counted(INITIAL, t) == {};
    }
  }

  lemma ReachableStates(cfg: Config, es: seq<Event>)
    requires IsRun(cfg, INITIAL, es)
    ensures var s := After(cfg, INITIAL, es);
            forall t ::
              && Active(s, t) == |Counted(s, t)| <= QuotaFor(cfg, t)
              && QueueExact(s, t)
              && (Queue(s, t) != [] ==> Active(s, t) + |WokenCalls(s, t)| >= QuotaFor(cfg, t) > 0)
    ensures forall t, i: nat :: LimitedBy(cfg, t, i)
                                ==> |Counted(After(cfg, INITIAL, es), t)| <= Candidates(cfg, t)[i].Floor
  {
    InitialInv(cfg);
    RunKeepsInv(cfg, INITIAL, es);
    var s := After(cfg, INITIAL, es);
    forall t ensures TenantInv(cfg, s, t) && (Queue(s, t) != [] ==> QuotaFor(cfg, t) > 0) {
      assert TenantInv(cfg, s, t);
      assert Queue(s, t) != [] ==> Queue(s, t)[0] in Queue(s, t);
    }
    forall t, i: nat | LimitedBy(cfg, t, i) ensures |Counted(s, t)| <= Candidates(cfg, t)[i].Floor {
      QuotaIsFirstPositive(cfg, t);
      assert TenantInv(cfg, s, t);
    }
  }

  /**
   * What becomes of a new call under a limit: it is counted exactly when fewer calls are
   * counted than the limit allows; otherwise it is refused and noted, or goes to the end of
   * the queue, as its rejectFast setting says.
   */
  lemma NewCallExactly(cfg: Config, s: State, id: CallId, t: Tenant, rejectFast: bool, i: nat)
    requires Inv(cfg, s) && Enabled(s, Start(id, t, rejectFast)) && LimitedBy(cfg, t, i)
    ensures var s' := Next(cfg, s, Start(id, t, rejectFast));
            var full := |Counted(s, t)| >= Candidates(cfg, t)[i].Floor;
            && (IsCounted(s', id, t) <==> !full)
            && (id !in s'.calls <==> full && rejectFast)
            && Rejections(s', t) == Rejections(s, t) + (if full && rejectFast then 1 else 0)
            && Queue(s', t) == Queue(s, t) + (if full && !rejectFast then [id] else [])
  {
    QuotaIsFirstPositive(cfg, t);
    assert TenantInv(cfg, s, t);
  }

  /** The step turns a call of the tenant away: its limit is filled, or it has waited too long. */
  ghost predicate TurnsAway(cfg: Config, s: State, e: Event, t: Tenant) {
    match e
    case Start(_, u, rejectFast) =>
      u == t && rejectFast &&
      exists i: nat :: LimitedBy(cfg, t, i) && |Counted(s, t)| >= Candidates(cfg, t)[i].Floor
    case Timeout(id) => id in s.calls && s.calls[id].tenant == t
    case _ => false
  }

  ghost function TurnedAway(cfg: Config, s: State, es: seq<Event>, t: Tenant): nat
    requires IsRun(cfg, s, es)
    decreases |es|
  {
    if es == [] then 0
    else (if TurnsAway(cfg, s, es[0], t) then 1 else 0) + TurnedAway(cfg, Next(cfg, s, es[0]), es[1..], t)
  }

  lemma LimitedExactly(cfg: Config, t: Tenant)
    ensures QuotaFor(cfg, t) > 0 <==> exists i: nat :: LimitedBy(cfg, t, i)
  {
    var c := Candidates(cfg, t);
    QuotaDisabledExactly(cfg, t);
    if QuotaFor(cfg, t) > 0 {
      var i: nat :| FirstPositive(c, i) && c[i] >= 1.0;
      assert LimitedBy(cfg, t, i);
    } else {
      forall i: nat ensures !LimitedBy(cfg, t, i) { assert FirstPositive(c, i) ==> c[i] < 1.0; }
    }
  }

  lemma StepCountsRejection(cfg: Config, s: State, e: Event, t: Tenant)
    requires Inv(cfg, s) && Enabled(s, e)
    ensures Rejections(Next(cfg, s, e), t) == Rejections(s, t) + (if TurnsAway(cfg, s, e, t) then 1 else 0)
  {
    if e.Start? && e.tenant == t {
      LimitedExactly(cfg, t);
      forall i: nat | LimitedBy(cfg, t, i)
        ensures Rejections(Next(cfg, s, e), t) ==
                Rejections(s, t) +
                (if |Counted(s, t)| >= Candidates(cfg, t)[i].Floor && e.rejectFast then 1 else 0)
      {
        NewCallExactly(cfg, s, e.id, t, e.rejectFast, i);
      }
      forall i: nat, j: nat | LimitedBy(cfg, t, i) && LimitedBy(cfg, t, j) ensures i == j {
      }
    }
  }

  /** The rejection number of a tenant is the number of its calls turned away so far. */
  lemma {:induction false} RejectionsCounted(cfg: Config, s: State, es: seq<Event>, t: Tenant)
    requires Inv(cfg, s) && IsRun(cfg, s, es)
    ensures Rejections(After(cfg, s, es), t) == Rejections(s, t) + TurnedAway(cfg, s, es, t)
    decreases |es|
  {
    if es == [] {
    } else {
      StepCountsRejection(cfg, s, es[0], t);
      StepKeepsInv(cfg, s, es[0]);
      RejectionsCounted(cfg, Next(cfg, s, es[0]), es[1..], t);
    }
  }

  /** A step of one tenant leaves the counter, queue and rejections of every other tenant alone. */
  lemma OtherTenantsUntouched(cfg: Config, s: State, e: Event, t: Tenant)
    requires Enabled(s, e)
    requires (if e.Start? then e.tenant else s.calls[e.id].tenant) != t
    ensures var s' := Next(cfg, s, e);
            Active(s', t) == Active(s, t) && Queue(s', t) == Queue(s, t) && Rejections(s', t) == Rejections(s, t)
  {
  }

  // ------------------------------------------------------------------ waiters are served

  predicate GivesBack(s: State, e: Event, t: Tenant) {
    (e.AcquireFailed? || e.ReleaseSettled?) && e.id in s.calls && s.calls[e.id].tenant == t
  }

  /** How many slots of tenant t a run gives back. */
  ghost function GiveBacks(cfg: Config, s: State, es: seq<Event>, t: Tenant): nat
    requires IsRun(cfg, s, es)
    decreases |es|
  {
    if es == [] then 0
    else (if GivesBack(s, es[0], t) then 1 else 0) + GiveBacks(cfg, Next(cfg, s, es[0]), es[1..], t)
  }

  ghost predicate WokenSometime(cfg: Config, s: State, es: seq<Event>, id: CallId)
    requires IsRun(cfg, s, es)
    decreases |es|
  {
    InPhase(s, id, Woken) || (es != [] && WokenSometime(cfg, Next(cfg, s, es[0]), es[1..], id))
  }

  /** One step either wakes the call at position k, or leaves it at most that far back. */
  lemma StepAdvancesWaiter(cfg: Config, s: State, e: Event, t: Tenant, k: nat)
    requires Inv(cfg, s) && Enabled(s, e) && k < |Queue(s, t)| && e != Timeout(Queue(s, t)[k])
    ensures var s' := Next(cfg, s, e);
            var id := Queue(s, t)[k];
            var bound := if GivesBack(s, e, t) then k - 1 else k;
            || InPhase(s', id, Woken)
            || (exists j :: 0 <= j <= bound && j < |Queue(s', t)| && Queue(s', t)[j] == id)
  {
    var s' := Next(cfg, s, e);
    var q := Queue(s, t);
    assert TenantInv(cfg, s, t) && q[k] in q;
    if e.Timeout? {
      assert TenantInv(cfg, s, s.calls[e.id].tenant);
      if s.calls[e.id].tenant == t {
        assert Queue(s', t) == Without(q, e.id);
        WithoutKeepsOrder(q, e.id, k);
        var j :| 0 <= j <= k && j < |Queue(s', t)| && Queue(s', t)[j] == q[k];
        assert !GivesBack(s, e, t);
      } else {
        assert Queue(s', t)[k] == q[k];
      }
    } else if GivesBack(s, e, t) {
      DecrementHandsOver(cfg, s, e.id);
      assert k > 0 ==> Queue(s', t)[k - 1] == q[k];
    } else {
      assert Queue(s', t)[k] == q[k];
    }
  }

  /**
   * First come, first woken: a call at position k of its queue that is not timed out is woken
   * in every run in which its tenant gives back more than k slots, whoever barges in between.
   */
  lemma {:induction false} WaiterIsWoken(cfg: Config, s: State, es: seq<Event>, t: Tenant, k: nat)
    requires Inv(cfg, s) && IsRun(cfg, s, es) && k < |Queue(s, t)|
    requires Timeout(Queue(s, t)[k]) !in es
    requires GiveBacks(cfg, s, es, t) > k
    ensures WokenSometime(cfg, s, es, Queue(s, t)[k])
    decreases |es|
  {
    var id := Queue(s, t)[k];
    var s' := Next(cfg, s, es[0]);
    StepKeepsInv(cfg, s, es[0]);
    StepAdvancesWaiter(cfg, s, es[0], t, k);
    if InPhase(s', id, Woken) {
      assert WokenSometime(cfg, s', es[1..], id);
    } else {
      var bound := if GivesBack(s, es[0], t) then k - 1 else k;
      var j :| 0 <= j <= bound && j < |Queue(s', t)| && Queue(s', t)[j] == id;
      WaiterIsWoken(cfg, s', es[1..], t, j);
    }
  }

  // ------------------------------------------------------------------ being woken is not being served

  /** A call of the tenant enters: a newcomer past the queue, or a woken call at its loop head. */
  predicate Enters(cfg: Config, s: State, e: Event, t: Tenant) {
    match e
    case Start(id, u, _) => u == t && 0 <= Active(s, t) < QuotaFor(cfg, t)
    case Resume(id) => id in s.calls && s.calls[id].tenant == t && Active(s, t) < QuotaFor(cfg, t)
    case _ => false
  }

  ghost function Entries(cfg: Config, s: State, es: seq<Event>, t: Tenant): nat
    requires IsRun(cfg, s, es)
    decreases |es|
  {
    if es == [] then 0
    else (if Enters(cfg, s, es[0], t) then 1 else 0) + Entries(cfg, Next(cfg, s, es[0]), es[1..], t)
  }

  lemma StepCounts(cfg: Config, s: State, e: Event, t: Tenant)
    requires Inv(cfg, s) && Enabled(s, e)
    ensures Active(Next(cfg, s, e), t) ==
            Active(s, t) + (if Enters(cfg, s, e, t) then 1 else 0) - if GivesBack(s, e, t) then 1 else 0
  {
    assert TenantInv(cfg, s, t);
    if GivesBack(s, e, t) { DecrementHandsOver(cfg, s, e.id); }
  }

  lemma WokenStays(cfg: Config, s: State, e: Event, id: CallId)
    requires Enabled(s, e) && InPhase(s, id, Woken) && e != Resume(id)
    ensures InPhase(Next(cfg, s, e), id, Woken) && Next(cfg, s, e).calls[id] == s.calls[id]
  {
  }

  /**
   * A woken call enters at its loop head exactly when, since any moment at which it was already woken, the calls that
   * entered before it left room: entries up to then are outnumbered by the slots that were free and those given back.
   */
  lemma {:induction false} WokenEntersExactly(cfg: Config, s: State, es: seq<Event>, id: CallId)
    requires Inv(cfg, s) && InPhase(s, id, Woken) && IsRun(cfg, s, es) && Resume(id) !in es
    ensures var t, last := s.calls[id].tenant, After(cfg, s, es);
            && Enabled(last, Resume(id))
            && (InPhase(Next(cfg, last, Resume(id)), id, Acquiring) <==>
                Entries(cfg, s, es, t) < QuotaFor(cfg, t) - Active(s, t) + GiveBacks(cfg, s, es, t))
    decreases |es|
  {
    if es != [] {
      StepKeepsInv(cfg, s, es[0]);
      StepCounts(cfg, s, es[0], s.calls[id].tenant);
      WokenStays(cfg, s, es[0], id);
      WokenEntersExactly(cfg, Next(cfg, s, es[0]), es[1..], id);
    }
  }

  ghost predicate EverAcquires(cfg: Config, s: State, es: seq<Event>, id: CallId)
    requires IsRun(cfg, s, es)
    decreases |es|
  {
    InPhase(s, id, Acquiring) || (es != [] && EverAcquires(cfg, Next(cfg, s, es[0]), es[1..], id))
  }

  /** All slots are taken, one of them by a holder, and w alone waits. */
  predicate Contended(cfg: Config, s: State, t: Tenant, holder: CallId, w: CallId) {
    && Active(s, t) == QuotaFor(cfg, t) >= 1 && Queue(s, t) == [w] && holder != w
    && holder in s.calls && s.calls[holder] == Call(t, Holding, false)
    && w in s.calls && s.calls[w] == Call(t, Waiting, false)
  }

  /** A run in which w is passed over: it gives back n slots, never lets w acquire, and leaves it waiting. */
  ghost predicate PassesOver(cfg: Config, s: State, es: seq<Event>, t: Tenant, w: CallId, n: nat) {
    && IsRun(cfg, s, es) && GiveBacks(cfg, s, es, t) == n && !EverAcquires(cfg, s, es, w)
    && InPhase(After(cfg, s, es), w, Waiting)
  }

  lemma PassCons(cfg: Config, s: State, e: Event, es: seq<Event>, t: Tenant, w: CallId, n: nat)
    requires Enabled(s, e) && PassesOver(cfg, Next(cfg, s, e), es, t, w, n) && !InPhase(s, w, Acquiring)
    ensures PassesOver(cfg, s, [e] + es, t, w, n + if GivesBack(s, e, t) then 1 else 0)
  {
    assert ([e] + es)[0] == e && ([e] + es)[1..] == es;
  }

  /** The holder releases, which wakes w. */
  predicate Freed(cfg: Config, s: State, t: Tenant, w: CallId) {
    && Active(s, t) == QuotaFor(cfg, t) - 1 >= 0 && Queue(s, t) == []
    && w in s.calls && s.calls[w] == Call(t, Woken, false)
  }

  /** A newcomer has entered before w runs. */
  predicate Overtaken(cfg: Config, s: State, t: Tenant, x: CallId, w: CallId) {
    && Active(s, t) == QuotaFor(cfg, t) >= 1 && Queue(s, t) == [] && x != w
    && x in s.calls && s.calls[x] == Call(t, Acquiring, false) && w in s.calls && s.calls[w] == Call(t, Woken, false)
  }

  lemma HolderFrees(cfg: Config, s: State, t: Tenant, holder: CallId, w: CallId)
    requires Contended(cfg, s, t, holder, w)
    ensures Enabled(s, ReleaseCalled(holder))
    ensures var s1 := Next(cfg, s, ReleaseCalled(holder));
            && !InPhase(s1, w, Acquiring) && Enabled(s1, ReleaseSettled(holder)) &&
               GivesBack(s1, ReleaseSettled(holder), t)
            && Freed(cfg, Next(cfg, s1, ReleaseSettled(holder)), t, w)
            && Next(cfg, s1, ReleaseSettled(holder)).calls.Keys <= s.calls.Keys
  {
  }

  lemma NewcomerEnters(cfg: Config, s: State, t: Tenant, w: CallId, x: CallId)
    requires Freed(cfg, s, t, w) && x !in s.calls
    ensures Enabled(s, Start(x, t, false)) && Overtaken(cfg, Next(cfg, s, Start(x, t, false)), t, x, w)
  {
  }

  lemma QueuesAgain(cfg: Config, s: State, t: Tenant, w: CallId, x: CallId)
    requires Overtaken(cfg, s, t, x, w)
    ensures Enabled(s, Resume(w))
    ensures var s1 := Next(cfg, s, Resume(w));
            && !InPhase(s1, w, Acquiring) && Enabled(s1, Acquired(x))
            && Contended(cfg, Next(cfg, s1, Acquired(x)), t, x, w)
  {
  }

  /**
   * So first come, first woken is not first come, first served: whatever the quota, for every n there is a run that
   * gives back n slots and never lets the first waiter acquire.
   */
  lemma {:induction false} WaiterPassedOver(cfg: Config, s: State, t: Tenant, holder: CallId, w: CallId, n: nat)
    returns (es: seq<Event>)
    requires Contended(cfg, s, t, holder, w)
    ensures PassesOver(cfg, s, es, t, w, n)
    decreases n
  {
    if n == 0 {
      es := [];
    } else {
      var x := FreshNumber(s.calls.Keys);
      var e1, e2, e3, e4, e5 := ReleaseCalled(holder), ReleaseSettled(holder), Start(x, t, false), Resume(w),
        Acquired(x);
      HolderFrees(cfg, s, t, holder, w);
      var s1 := Next(cfg, s, e1);
      var s2 := Next(cfg, s1, e2);
      NewcomerEnters(cfg, s2, t, w, x);
      var s3 := Next(cfg, s2, e3);
      QueuesAgain(cfg, s3, t, w, x);
      var s4 := Next(cfg, s3, e4);
      var rest := WaiterPassedOver(cfg, Next(cfg, s4, e5), t, x, w, n - 1);
      PassCons(cfg, s4, e5, rest, t, w, n - 1);
      PassCons(cfg, s3, e4, [e5] + rest, t, w, n - 1);
      PassCons(cfg, s2, e3, [e4] + ([e5] + rest), t, w, n - 1);
      PassCons(cfg, s1, e2, [e3] + ([e4] + ([e5] + rest)), t, w, n - 1);
      PassCons(cfg, s, e1, [e2] + ([e3] + ([e4] + ([e5] + rest))), t, w, n);
      es := [e1] + ([e2] + ([e3] + ([e4] + ([e5] + rest))));
    }
  }

  /** Calls 0 to n - 1 hold a slot each. */
  function HoldingCalls(t: Tenant, n: nat): (calls: map<CallId, Call>)
    ensures forall i: nat :: i in calls <==> i < n
  {
    if n == 0 then map[] else HoldingCalls(t, n - 1)[n - 1 := Call(t, Holding, false)]
  }

  function Filled(t: Tenant, n: nat): State {
    State(if n == 0 then map[] else map[t := n], map[], map[], HoldingCalls(t, n))
  }

  lemma OneMoreHolder(cfg: Config, t: Tenant, n: nat)
    requires n < QuotaFor(cfg, t)
    ensures Enabled(Filled(t, n), Start(n, t, false))
    ensures var s1 := Next(cfg, Filled(t, n), Start(n, t, false));
            && Enabled(s1, Acquired(n)) && Next(cfg, s1, Acquired(n)) == Filled(t, n + 1)
            && forall i :: i > n ==> i !in s1.calls
  {
    var s1 := Next(cfg, Filled(t, n), Start(n, t, false));
    assert s1.active == map[t := n + 1];
    assert s1.calls[n := Call(t, Holding, false)] == HoldingCalls(t, n)[n := Call(t, Holding, false)];
  }

  lemma {:induction false} FillThen(cfg: Config, t: Tenant, m: nat, rest: seq<Event>, w: CallId, n: nat)
    returns (es: seq<Event>)
    requires m <= QuotaFor(cfg, t) == w && PassesOver(cfg, Filled(t, w), rest, t, w, n)
    ensures PassesOver(cfg, Filled(t, m), es, t, w, n)
    decreases w - m
  {
    if m == w {
      es := rest;
    } else {
      var more := FillThen(cfg, t, m + 1, rest, w, n);
      OneMoreHolder(cfg, t, m);
      var s1 := Next(cfg, Filled(t, m), Start(m, t, false));
      PassCons(cfg, s1, Acquired(m), more, t, w, n);
      PassCons(cfg, Filled(t, m), Start(m, t, false), [Acquired(m)] + more, t, w, n);
      es := [Start(m, t, false)] + ([Acquired(m)] + more);
    }
  }

  lemma FirstToWait(cfg: Config, t: Tenant)
    requires QuotaFor(cfg, t) >= 1
    ensures var w := QuotaFor(cfg, t);
            var e := Start(w, t, false);
            Enabled(Filled(t, w), e) && Contended(cfg, Next(cfg, Filled(t, w), e), t, w - 1, w)
  {
    assert HoldingCalls(t, QuotaFor(cfg, t))[QuotaFor(cfg, t) - 1] == Call(t, Holding, false);
  }

  /** Such runs start from the empty tables, for every quota. */
  lemma EveryQuotaPassesOver(cfg: Config, t: Tenant, n: nat) returns (es: seq<Event>)
    requires QuotaFor(cfg, t) >= 1
    ensures PassesOver(cfg, INITIAL, es, t, QuotaFor(cfg, t), n)
  {
    var w := QuotaFor(cfg, t);
    var wait := Start(w, t, false);
    FirstToWait(cfg, t);
    var rest := WaiterPassedOver(cfg, Next(cfg, Filled(t, w), wait), t, w - 1, w, n);
    PassCons(cfg, Filled(t, w), wait, rest, t, w, n);
    es := FillThen(cfg, t, 0, [wait] + rest, w, n);
    assert Filled(t, 0) == INITIAL;
  }

  // ------------------------------------------------------------------ the module's own tables

  /** The maps of the JavaScript module, updated in place by the stretches of withQuota. */
  class QuotaTable {
    const cfg: Config
    var active: map<Tenant, int>
    var rejections: map<Tenant, nat>
    var waiters: map<Tenant, seq<CallId>>
    var calls: map<CallId, Call>

    function Table(): (s: State) reads this { State(active, rejections, waiters, calls) }

    constructor (cfg: Config)
      ensures Table() == INITIAL && this.cfg == cfg
    {
      this.cfg := cfg;
      active, rejections, waiters, calls := map[], map[], map[], map[];
    }

    method IncrRejections(t: Tenant)
      modifies this`rejections
      ensures rejections == old(rejections)[t := Rejections(old(Table()), t) + 1]
    {
      rejections := rejections[t := (if t in rejections then rejections[t] else 0) + 1];
    }

    method SignalNextWaiter(t: Tenant)
      modifies this`waiters, this`calls
      ensures Table() == Signal(old(Table()), t)
    {
      if t in waiters && |waiters[t]| > 0 {
        var id := waiters[t][0];
        waiters := waiters[t := waiters[t][1..]];
        if id in calls && calls[id].phase == Waiting {
          calls := calls[id := calls[id].(phase := Woken)];
        }
      }
    }

    method DecrementActive(t: Tenant)
      modifies this`active, this`waiters, this`calls
      ensures Table() == Decrement(old(Table()), t)
    {
      active := active[t := Max(0, Active(Table(), t) - 1)];
      SignalNextWaiter(t);
    }

    /** From the loop head to the next await. */
    method RunLoopHead(id: CallId, c: Call)
      modifies this
      ensures Table() == LoopHead(cfg, old(Table()), id, c)
    {
      var t := c.tenant;
      if Active(Table(), t) >= QuotaFor(cfg, t) {
        if c.rejectFast {
          IncrRejections(t);
          calls := calls - {id};
        } else {
          if t !in waiters { waiters := waiters[t := []]; }
          waiters := waiters[t := waiters[t] + [id]];
          calls := calls[id := c.(phase := Waiting)];
        }
      } else {
        active := active[t := Active(Table(), t) + 1];
        calls := calls[id := c.(phase := Acquiring)];
      }
    }

    method WithQuota(id: CallId, t: Tenant, rejectFast: bool)
      requires Enabled(Table(), Start(id, t, rejectFast))
      modifies this
      ensures Table() == Next(cfg, old(Table()), Start(id, t, rejectFast))
    {
      var quota := QuotaFor(cfg, t);
      if quota != 0 {
        RunLoopHead(id, Call(t, Woken, rejectFast));
      }
    }

    method ResumeWaiter(id: CallId)
      requires Enabled(Table(), Resume(id))
      modifies this
      ensures Table() == Next(cfg, old(Table()), Resume(id))
    {
      RunLoopHead(id, calls[id]);
    }

    method WaitTimeout(id: CallId)
      requires Enabled(Table(), Timeout(id))
      modifies this
      ensures Table() == Next(cfg, old(Table()), Timeout(id))
    {
      var t := calls[id].tenant;
      waiters := waiters[t := Without(Queue(Table(), t), id)];
      IncrRejections(t);
      calls := calls - {id};
    }

    method AcquireSettled(id: CallId, ok: bool)
      requires Enabled(Table(), Acquired(id))
      modifies this
      ensures Table() == Next(cfg, old(Table()), if ok then Acquired(id) else AcquireFailed(id))
    {
      var c := calls[id];
      if ok {
        calls := calls[id := c.(phase := Holding)];
      } else {
        calls := calls - {id};
        DecrementActive(c.tenant);
      }
    }

    method CallRelease(id: CallId)
      requires Enabled(Table(), ReleaseCalled(id))
      modifies this
      ensures Table() == Next(cfg, old(Table()), ReleaseCalled(id))
    {
      calls := calls[id := calls[id].(phase := Releasing)];
    }

    method ReleaseDone(id: CallId)
      requires Enabled(Table(), ReleaseSettled(id))
      modifies this
      ensures Table() == Next(cfg, old(Table()), ReleaseSettled(id))
    {
      var t := calls[id].tenant;
      calls := calls - {id};
      DecrementActive(t);
    }
  }
}
