/**
 * The clocks around the shared counter (apps/worker-ingest/src/browserManagerServer.js): every granted acquire sets the
 * life of the tenant's counter key anew, a lease carries a deadline of its own, and each replica collects its leases
 * on a timer. Times are whole milliseconds; a timer fires at its time, and a key may go from its deadline on.
 */
module LeaseClock {
  import opened Basics
  import Q = LeaseQuota

  /** The PEXPIRE argument and the collection interval, for a given LEASE_TTL_MS. */
  function KeyLife(ttl: int): int { Min(86_400_000, Max(ttl * 50, 60_000)) }

  function CollectEvery(ttl: int): int { Max(1000, ttl / 4) }

  datatype State = State(
    q: Q.State, now: int,
    deadline: map<Q.Tenant, int>,        // of the counter keys that have one
    nextTick: map<Q.Replica, int>,       // of the running replicas' collection timers
    grantedAt: map<Q.OpId, int>,         // when an operation's PEXPIRE was answered
    leaseGrantedAt: map<Q.LeaseId, int>, // the same, of the operation that became the lease
    expiresAt: map<Q.LeaseId, int>,
    since: map<Q.OpId, int>)             // when an operation's INCR was executed, or its DECR fell due

  datatype Event =
    | Do(e: Q.Event, touched: bool) // touched: a PEXPIRE whose reply was lost did run
    | Boot(r: Q.Replica)
    | Tick(r: Q.Replica)            // the end of a collection; its releases come just before
    | Advance(to: int)

  datatype Config = Config(ttl: int, max: nat)

  ghost predicate Enabled(cfg: Config, s: State, e: Event) {
    match e
    case Do(Incr(id, r, t, answered), _) => Q.Enabled(s.q, e.e) && r in s.nextTick
    case Do(Expire(t), _) => t in s.deadline && s.deadline[t] <= s.now
    case Do(qe, _) => Q.Enabled(s.q, qe)
    case Boot(r) => r !in s.nextTick
    case Tick(r) =>
      r in s.nextTick && s.nextTick[r] == s.now && forall l :: l in s.q.leases && s.q.leases[l].replica == r ==>
                      l in s.expiresAt && s.expiresAt[l] > s.now
    case Advance(to) => to > s.now && forall r :: r in s.nextTick ==> to <= s.nextTick[r]
  }

  /** What a step on the counter does to the clocks. */
  ghost function Clocked(cfg: Config, s: State, e: Q.Event, touched: bool, q': Q.State): State
    requires Q.Enabled(s.q, e)
  {
    match e
    case Incr(id, _, _, _) => s.(q := q', since := s.since[id := s.now])
    case LeaseFailed(id) => s.(q := q', since := s.since[id := s.now])
    case Release(id, _, _) => s.(q := q', since := s.since[id := s.now])
    case ExpirySet(id, ok) =>
      var t := s.q.ops[id].tenant;
      s.(q := q', grantedAt := if ok then s.grantedAt[id := s.now] else s.grantedAt,
         deadline := if (ok || touched) && t in s.q.counter then s.deadline[t := s.now + KeyLife(cfg.ttl)]
           else s.deadline)
    case LeaseReady(id, l) =>
      s.(q := q', leaseGrantedAt := s.leaseGrantedAt[l := if id in s.grantedAt then s.grantedAt[id] else s.now],
         expiresAt := s.expiresAt[l := s.now + cfg.ttl])
    case Expire(t) => s.(q := q', deadline := s.deadline - {t})
    case Reset(id, ran) => s.(q := q', deadline := if ran then s.deadline - {s.q.ops[id].tenant} else s.deadline)
    case Crash(r) => s.(q := q', nextTick := s.nextTick - {r})
    case _ => s.(q := q')
  }

  ghost function Next(cfg: Config, s: State, e: Event): State
    requires Enabled(cfg, s, e)
  {
    match e
    case Do(qe, touched) => Clocked(cfg, s, qe, touched, Q.Next(cfg.max, s.q, qe))
    case Boot(r) => s.(nextTick := s.nextTick[r := s.now + CollectEvery(cfg.ttl)])
    case Tick(r) => s.(nextTick := s.nextTick[r := s.now + CollectEvery(cfg.ttl)])
    case Advance(to) => s.(now := to)
  }

  function Start(): State { State(Q.INITIAL, 0, map[], map[], map[], map[], map[], map[]) }

  ghost predicate IsRun(cfg: Config, s: State, es: seq<Event>)
    decreases |es|
  {
    es == [] || (Enabled(cfg, s, es[0]) && IsRun(cfg, Next(cfg, s, es[0]), es[1..]))
  }

  ghost function After(cfg: Config, s: State, es: seq<Event>): State
    requires IsRun(cfg, s, es)
    decreases |es|
  {
    if es == [] then s else After(cfg, Next(cfg, s, es[0]), es[1..])
  }

  // ------------------------------------------------------------------ what every run keeps

  /** leaseRemoteBrowser answered within this time of the grant. */
  predicate PromptStep(wait: int, s: State, e: Event) {
    e.Do? && e.e.LeaseReady? ==> e.e.id in s.grantedAt && s.now - s.grantedAt[e.e.id] <= wait
  }

  /**
   * Limits on how long things take: a browser that is leased comes within `wait` of the grant. With a `lag` every other
   * wait is limited too: no operation waits longer than `wait` for its browser or longer than `lag` for Redis, and an
   * INCR within the cap is executed at least `gap` before its key's deadline.
   */
  datatype Limits = Limits(wait: int, lag: Option<int>, gap: int)

  /** Only the browsers that are leased have to come in time. */
  function OnlyBrowsers(wait: int): Limits { Limits(wait, None, 0) }

  /** The operation may still be waiting at time x. */
  predicate MayWait(lim: Limits, s: State, id: Q.OpId, x: int)
    requires id in s.q.ops
  {
    lim.lag.None? ||
    if s.q.ops[id].phase == Q.Leasing then id in s.grantedAt && x <= s.grantedAt[id] + lim.wait
    else id in s.since && x <= s.since[id] + lim.lag.value
  }

  ghost predicate Within(lim: Limits, s: State, e: Event) {
    && PromptStep(lim.wait, s, e)
    && (lim.lag.Some? && e.Do? && e.e.Incr? && e.e.answered && e.e.tenant in s.deadline ==>
        s.deadline[e.e.tenant] >= s.now + lim.gap)
    && (e.Advance? ==> forall id :: id in s.q.ops ==> MayWait(lim, s, id, e.to))
  }

  ghost predicate InTime(cfg: Config, lim: Limits, s: State, es: seq<Event>)
    requires IsRun(cfg, s, es)
    decreases |es|
  {
    es == [] || (Within(lim, s, es[0]) && InTime(cfg, lim, Next(cfg, s, es[0]), es[1..]))
  }

  /** The tenant's key, as far as it has a deadline, lives a whole key life from this grant. */
  predicate CoveredFrom(cfg: Config, s: State, t: Q.Tenant, at: int) {
    at <= s.now && (t in s.deadline ==> s.deadline[t] >= at + KeyLife(cfg.ttl))
  }

  predicate TickTrue(cfg: Config, s: State, r: Q.Replica)
    requires r in s.nextTick
  {
    s.now <= s.nextTick[r] <= s.now + CollectEvery(cfg.ttl)
  }

  predicate OpTrue(cfg: Config, s: State, id: Q.OpId)
    requires id in s.q.ops
  {
    var op := s.q.ops[id];
    op.replica in s.nextTick &&
      (op.phase == Q.Leasing ==> id in s.grantedAt && CoveredFrom(cfg, s, op.tenant, s.grantedAt[id]))
  }

  /** A live lease is collected less than one interval after its deadline. */
  predicate Watched(cfg: Config, s: State, r: Q.Replica, expiry: int) {
    r in s.nextTick && s.nextTick[r] < expiry + CollectEvery(cfg.ttl)
  }

  predicate LeaseTrue(cfg: Config, wait: int, s: State, l: Q.LeaseId)
    requires l in s.q.leases
  {
    var lease := s.q.leases[l];
    && l in s.expiresAt && l in s.leaseGrantedAt && Watched(cfg, s, lease.replica, s.expiresAt[l])
    && s.expiresAt[l] <= s.leaseGrantedAt[l] + wait + cfg.ttl
    && CoveredFrom(cfg, s, lease.tenant, s.leaseGrantedAt[l])
  }

  ghost predicate Inv(cfg: Config, wait: int, s: State) {
    && (forall r :: r in s.nextTick ==> TickTrue(cfg, s, r))
    && (forall id :: id in s.q.ops ==> OpTrue(cfg, s, id))
    && (forall l :: l in s.q.leases ==> LeaseTrue(cfg, wait, s, l))
    && s.deadline.Keys <= s.q.counter.Keys
  }

  // What a step on the counter leaves alone; the clocks follow.

  lemma CounterKeys(max: nat, q: Q.State, e: Q.Event)
    requires Q.Enabled(q, e)
    ensures q.counter.Keys - (if e.Expire? then {e.tenant} else {}) <= Q.Next(max, q, e).counter.Keys
  {
  }

  lemma LeaseFrame(max: nat, q: Q.State, e: Q.Event, l: Q.LeaseId)
    requires Q.Enabled(q, e) && l in q.leases && l in Q.Next(max, q, e).leases && !(e.LeaseReady? && e.lease == l)
    ensures Q.Next(max, q, e).leases[l] == q.leases[l] && !(e.Crash? && e.replica == q.leases[l].replica)
  {
  }

  /** Where an operation after the step comes from. */
  ghost predicate OpOrigin(q: Q.State, e: Q.Event, id: Q.OpId, op: Q.Op) {
    || (id in q.ops && op.replica == q.ops[id].replica && op.tenant == q.ops[id].tenant
        && (op.phase == Q.Leasing ==> q.ops[id].phase == Q.Leasing || e == Q.ExpirySet(id, true))
        && !(e.Crash? && e.replica == op.replica))
    || (e.Incr? && e.replica == op.replica && op.phase != Q.Leasing)
    || (e.Release? && Q.LeasedBy(q, op.replica, e.lease) && op.phase != Q.Leasing)
  }

  lemma OpFrame(max: nat, q: Q.State, e: Q.Event, id: Q.OpId)
    requires Q.Enabled(q, e) && id in Q.Next(max, q, e).ops
    ensures OpOrigin(q, e, id, Q.Next(max, q, e).ops[id])
  {
  }

  lemma ClockedKeys(cfg: Config, s: State, e: Q.Event, touched: bool, q': Q.State)
    requires Q.Enabled(s.q, e) && s.deadline.Keys <= s.q.counter.Keys
    requires s.q.counter.Keys - (if e.Expire? then {e.tenant} else {}) <= q'.counter.Keys
    ensures Clocked(cfg, s, e, touched, q').q == q' && Clocked(cfg, s, e, touched, q').deadline.Keys <= q'.counter.Keys
  {
    forall t | t in Clocked(cfg, s, e, touched, q').deadline ensures t in q'.counter.Keys {
      if t in s.deadline { assert t in s.q.counter.Keys; }
    }
  }

  lemma StepKeepsKeys(cfg: Config, s: State, e: Event)
    requires Enabled(cfg, s, e) && s.deadline.Keys <= s.q.counter.Keys
    ensures Next(cfg, s, e).deadline.Keys <= Next(cfg, s, e).q.counter.Keys
  {
    if e.Do? {
      CounterKeys(cfg.max, s.q, e.e);
      ClockedKeys(cfg, s, e.e, e.touched, Q.Next(cfg.max, s.q, e.e));
    }
  }

  lemma StepKeepsTicks(cfg: Config, s: State, e: Event)
    requires Enabled(cfg, s, e) && forall r :: r in s.nextTick ==> TickTrue(cfg, s, r)
    ensures forall r :: r in Next(cfg, s, e).nextTick ==> TickTrue(cfg, Next(cfg, s, e), r)
  {
  }

  /** A step keeps a grant covered: deadlines only go or move later. */
  lemma StepKeepsCover(cfg: Config, s: State, e: Event, t: Q.Tenant, at: int)
    requires Enabled(cfg, s, e) && CoveredFrom(cfg, s, t, at)
    ensures CoveredFrom(cfg, Next(cfg, s, e), t, at)
  {
  }

  /** The clocks of an operation, and of the lease it may become, after a step on the counter. */
  lemma ClockedOp(cfg: Config, wait: int, s: State, e: Q.Event, touched: bool, q': Q.State, id: Q.OpId)
    requires Q.Enabled(s.q, e) && Enabled(cfg, s, Do(e, touched)) && Inv(cfg, wait, s)
    requires id in q'.ops && OpOrigin(s.q, e, id, q'.ops[id])
    ensures OpTrue(cfg, Clocked(cfg, s, e, touched, q'), id)
  {
    if id in s.q.ops { assert OpTrue(cfg, s, id); }
    if e.Release? && Q.LeasedBy(s.q, q'.ops[id].replica, e.lease) { assert LeaseTrue(cfg, wait, s, e.lease); }
  }

  lemma DoSteps(cfg: Config, s: State, e: Q.Event, touched: bool)
    requires Enabled(cfg, s, Do(e, touched))
    ensures Q.Enabled(s.q, e) && Next(cfg, s, Do(e, touched)).q == Q.Next(cfg.max, s.q, e)
  {
  }

  lemma CommandKeepsOps(cfg: Config, wait: int, s: State, e: Q.Event, touched: bool, id: Q.OpId)
    requires Inv(cfg, wait, s) && Enabled(cfg, s, Do(e, touched)) && Q.Enabled(s.q, e)
    requires id in Q.Next(cfg.max, s.q, e).ops
    ensures id in Next(cfg, s, Do(e, touched)).q.ops && OpTrue(cfg, Next(cfg, s, Do(e, touched)), id)
  {
    OpFrame(cfg.max, s.q, e, id);
    ClockedOp(cfg, wait, s, e, touched, Q.Next(cfg.max, s.q, e), id);
  }

  lemma ClockKeepsOps(cfg: Config, wait: int, s: State, e: Event, id: Q.OpId)
    requires Inv(cfg, wait, s) && Enabled(cfg, s, e) && !e.Do? && id in s.q.ops
    ensures id in Next(cfg, s, e).q.ops && OpTrue(cfg, Next(cfg, s, e), id)
  {
    assert OpTrue(cfg, s, id);
  }

  lemma StepKeepsOps(cfg: Config, wait: int, s: State, e: Event, id: Q.OpId)
    requires Inv(cfg, wait, s) && Enabled(cfg, s, e) && id in Next(cfg, s, e).q.ops
    ensures OpTrue(cfg, Next(cfg, s, e), id)
  {
    match e
    case Do(qe, touched) =>
      DoSteps(cfg, s, qe, touched);
      CommandKeepsOps(cfg, wait, s, qe, touched, id);
    case _ => ClockKeepsOps(cfg, wait, s, e, id);
  }

  lemma StepKeepsWatch(cfg: Config, s: State, e: Event, r: Q.Replica, expiry: int)
    requires Enabled(cfg, s, e) && Watched(cfg, s, r, expiry) && !(e.Do? && e.e.Crash? && e.e.replica == r)
    requires e == Tick(r) ==> expiry > s.now
    ensures Watched(cfg, Next(cfg, s, e), r, expiry)
  {
  }

  ghost predicate SameClocks(s: State, t: State, l: Q.LeaseId) {
    && (l in s.expiresAt ==> l in t.expiresAt && t.expiresAt[l] == s.expiresAt[l])
    && (l in s.leaseGrantedAt ==> l in t.leaseGrantedAt && t.leaseGrantedAt[l] == s.leaseGrantedAt[l])
  }

  lemma ClockedLease(cfg: Config, s: State, e: Q.Event, touched: bool, q': Q.State, l: Q.LeaseId)
    requires Q.Enabled(s.q, e) && !(e.LeaseReady? && e.lease == l)
    ensures SameClocks(s, Clocked(cfg, s, e, touched, q'), l)
  {
  }

  lemma CountedLeaseKept(cfg: Config, s: State, e: Q.Event, touched: bool, l: Q.LeaseId)
    requires Q.Enabled(s.q, e) && l in s.q.leases && l in Q.Next(cfg.max, s.q, e).leases
    requires !(e.LeaseReady? && e.lease == l)
    ensures var q' := Q.Next(cfg.max, s.q, e);
            && q'.leases[l] == s.q.leases[l] && !(e.Crash? && e.replica == s.q.leases[l].replica)
            && Clocked(cfg, s, e, touched, q').q == q' && SameClocks(s, Clocked(cfg, s, e, touched, q'), l)
  {
    LeaseFrame(cfg.max, s.q, e, l);
    ClockedLease(cfg, s, e, touched, Q.Next(cfg.max, s.q, e), l);
  }

  lemma ClockLeaseKept(cfg: Config, s: State, e: Event, l: Q.LeaseId)
    requires Enabled(cfg, s, e) && !e.Do? && l in s.q.leases
    ensures Next(cfg, s, e).q == s.q && SameClocks(s, Next(cfg, s, e), l)
  {
  }

  lemma LeaseStill(cfg: Config, wait: int, s: State, t: State, l: Q.LeaseId)
    requires l in s.q.leases && LeaseTrue(cfg, wait, s, l)
    requires l in t.q.leases && t.q.leases[l] == s.q.leases[l] && SameClocks(s, t, l)
    requires CoveredFrom(cfg, t, s.q.leases[l].tenant, s.leaseGrantedAt[l])
    requires Watched(cfg, t, s.q.leases[l].replica, s.expiresAt[l])
    ensures LeaseTrue(cfg, wait, t, l)
  {
  }

  lemma CountedLeaseStays(cfg: Config, wait: int, s: State, e: Q.Event, touched: bool, l: Q.LeaseId)
    requires Enabled(cfg, s, Do(e, touched)) && l in s.q.leases && LeaseTrue(cfg, wait, s, l)
    requires Q.Enabled(s.q, e) && l in Q.Next(cfg.max, s.q, e).leases && !(e.LeaseReady? && e.lease == l)
    ensures LeaseTrue(cfg, wait, Next(cfg, s, Do(e, touched)), l)
  {
    CountedLeaseKept(cfg, s, e, touched, l);
    StepKeepsCover(cfg, s, Do(e, touched), s.q.leases[l].tenant, s.leaseGrantedAt[l]);
    StepKeepsWatch(cfg, s, Do(e, touched), s.q.leases[l].replica, s.expiresAt[l]);
    LeaseStill(cfg, wait, s, Clocked(cfg, s, e, touched, Q.Next(cfg.max, s.q, e)), l);
  }

  lemma ClockLeaseStays(cfg: Config, wait: int, s: State, e: Event, l: Q.LeaseId)
    requires Enabled(cfg, s, e) && !e.Do? && l in s.q.leases && LeaseTrue(cfg, wait, s, l)
    ensures l in Next(cfg, s, e).q.leases && LeaseTrue(cfg, wait, Next(cfg, s, e), l)
  {
    ClockLeaseKept(cfg, s, e, l);
    StepKeepsCover(cfg, s, e, s.q.leases[l].tenant, s.leaseGrantedAt[l]);
    StepKeepsWatch(cfg, s, e, s.q.leases[l].replica, s.expiresAt[l]);
    LeaseStill(cfg, wait, s, Next(cfg, s, e), l);
  }

  lemma OldLeaseStays(cfg: Config, wait: int, s: State, e: Event, l: Q.LeaseId)
    requires Inv(cfg, wait, s) && Enabled(cfg, s, e) && l in s.q.leases && l in Next(cfg, s, e).q.leases
    requires !(e.Do? && e.e.LeaseReady? && e.e.lease == l)
    ensures LeaseTrue(cfg, wait, Next(cfg, s, e), l)
  {
    match e
    case Do(qe, touched) =>
      DoSteps(cfg, s, qe, touched);
      CountedLeaseStays(cfg, wait, s, qe, touched, l);
    case _ => ClockLeaseStays(cfg, wait, s, e, l);
  }

  lemma NewLeaseTrue(cfg: Config, wait: int, s: State, id: Q.OpId, l: Q.LeaseId, touched: bool)
    requires cfg.ttl >= 1 && Inv(cfg, wait, s) && Enabled(cfg, s, Do(Q.LeaseReady(id, l), touched))
    requires PromptStep(wait, s, Do(Q.LeaseReady(id, l), touched))
    ensures LeaseTrue(cfg, wait, Next(cfg, s, Do(Q.LeaseReady(id, l), touched)), l)
  {
    assert OpTrue(cfg, s, id) && TickTrue(cfg, s, s.q.ops[id].replica);
  }

  /** Leases come from nowhere else. */
  lemma OldLease(max: nat, q: Q.State, e: Q.Event, l: Q.LeaseId)
    requires Q.Enabled(q, e) && l in Q.Next(max, q, e).leases && !(e.LeaseReady? && e.lease == l)
    ensures l in q.leases
  {
  }

  lemma CommandKeepsLease(cfg: Config, wait: int, s: State, e: Q.Event, touched: bool, l: Q.LeaseId)
    requires cfg.ttl >= 1 && Inv(cfg, wait, s) && Enabled(cfg, s, Do(e, touched)) && PromptStep(wait, s, Do(e, touched))
    requires Q.Enabled(s.q, e) && l in Q.Next(cfg.max, s.q, e).leases && l in Next(cfg, s, Do(e, touched)).q.leases
    ensures LeaseTrue(cfg, wait, Next(cfg, s, Do(e, touched)), l)
  {
    if e.LeaseReady? && e.lease == l {
      NewLeaseTrue(cfg, wait, s, e.id, l, touched);
    } else {
      OldLease(cfg.max, s.q, e, l);
      OldLeaseStays(cfg, wait, s, Do(e, touched), l);
    }
  }

  lemma StepKeepsLease(cfg: Config, wait: int, s: State, e: Event, l: Q.LeaseId)
    requires cfg.ttl >= 1 && Inv(cfg, wait, s) && Enabled(cfg, s, e) && PromptStep(wait, s, e)
    requires l in Next(cfg, s, e).q.leases
    ensures LeaseTrue(cfg, wait, Next(cfg, s, e), l)
  {
    match e
    case Do(qe, touched) =>
      DoSteps(cfg, s, qe, touched);
      CommandKeepsLease(cfg, wait, s, qe, touched, l);
    case _ => OldLeaseStays(cfg, wait, s, e, l);
  }

  lemma StepKeepsInv(cfg: Config, wait: int, s: State, e: Event)
    requires cfg.ttl >= 1 && Inv(cfg, wait, s) && Enabled(cfg, s, e) && PromptStep(wait, s, e)
    ensures Inv(cfg, wait, Next(cfg, s, e))
  {
    StepKeepsTicks(cfg, s, e);
    StepKeepsKeys(cfg, s, e);
    forall id | id in Next(cfg, s, e).q.ops ensures OpTrue(cfg, Next(cfg, s, e), id) {
      StepKeepsOps(cfg, wait, s, e, id);
    }
    forall l | l in Next(cfg, s, e).q.leases ensures LeaseTrue(cfg, wait, Next(cfg, s, e), l) {
      StepKeepsLease(cfg, wait, s, e, l);
    }
  }

  // ------------------------------------------------------------------ no lease outlives its key

  /** For these settings a lease is collected before the key it is counted under can expire. */
  predicate Safe(cfg: Config, wait: int) { wait + cfg.ttl + CollectEvery(cfg.ttl) <= KeyLife(cfg.ttl) }

  lemma SafeIsTimely(cfg: Config, wait: int, s: State, t: Q.Tenant)
    requires Inv(cfg, wait, s) && Safe(cfg, wait) && Enabled(cfg, s, Do(Q.Expire(t), false))
    ensures Q.LeasesOf(s.q, t) == {}
  {
    forall l | l in s.q.leases ensures s.q.leases[l].tenant != t {
      assert LeaseTrue(cfg, wait, s, l) && TickTrue(cfg, s, s.q.leases[l].replica);
    }
  }

  lemma {:induction false} RunKeepsInv(cfg: Config, lim: Limits, s: State, es: seq<Event>)
    requires cfg.ttl >= 1 && Inv(cfg, lim.wait, s) && IsRun(cfg, s, es) && InTime(cfg, lim, s, es)
    ensures Inv(cfg, lim.wait, After(cfg, s, es))
    decreases |es|
  {
    if es != [] {
      StepKeepsInv(cfg, lim.wait, s, es[0]);
      RunKeepsInv(cfg, lim, Next(cfg, s, es[0]), es[1..]);
    }
  }

  // ------------------------------------------------------------------ and otherwise one can

  /** Some run with prompt answers leads from s to t. */
  ghost predicate Reaches(cfg: Config, lim: Limits, s: State, t: State) {
    exists es :: IsRun(cfg, s, es) && InTime(cfg, lim, s, es) && After(cfg, s, es) == t
  }

  lemma ReachesSelf(cfg: Config, lim: Limits, s: State)
    ensures Reaches(cfg, lim, s, s)
  {
    assert IsRun(cfg, s, []) && InTime(cfg, lim, s, []) && After(cfg, s, []) == s;
  }

  lemma StepFirst(cfg: Config, lim: Limits, s: State, e: Event, es: seq<Event>)
    requires Enabled(cfg, s, e) && Within(lim, s, e)
    requires IsRun(cfg, Next(cfg, s, e), es) && InTime(cfg, lim, Next(cfg, s, e), es)
    ensures IsRun(cfg, s, [e] + es) && InTime(cfg, lim, s, [e] + es)
    ensures After(cfg, s, [e] + es) == After(cfg, Next(cfg, s, e), es)
  {
    assert ([e] + es)[0] == e && ([e] + es)[1..] == es;
  }

  lemma StepReaches(cfg: Config, lim: Limits, s: State, e: Event, t: State)
    requires Enabled(cfg, s, e) && Within(lim, s, e) && Reaches(cfg, lim, Next(cfg, s, e), t)
    ensures Reaches(cfg, lim, s, t)
  {
    var es :| IsRun(cfg, Next(cfg, s, e), es) && InTime(cfg, lim, Next(cfg, s, e), es) &&
      After(cfg, Next(cfg, s, e), es) == t;
    StepFirst(cfg, lim, s, e, es);
  }

  lemma {:induction false} RunReaches(cfg: Config, lim: Limits, s: State, es: seq<Event>, u: State)
    requires IsRun(cfg, s, es) && InTime(cfg, lim, s, es) && Reaches(cfg, lim, After(cfg, s, es), u)
    ensures Reaches(cfg, lim, s, u)
    decreases |es|
  {
    if es != [] {
      RunReaches(cfg, lim, Next(cfg, s, es[0]), es[1..], u);
      StepReaches(cfg, lim, s, es[0], u);
    }
  }

  lemma Onward(cfg: Config, lim: Limits, s: State, t: State, u: State)
    requires Reaches(cfg, lim, s, t) && Reaches(cfg, lim, t, u)
    ensures Reaches(cfg, lim, s, u)
  {
    var es :| IsRun(cfg, s, es) && InTime(cfg, lim, s, es) && After(cfg, s, es) == t;
    RunReaches(cfg, lim, s, es, u);
  }

  lemma OneTickLess(k: int, every: int)
    ensures k * every == every + (k - 1) * every
  {
  }

  /** The lone replica's timer fires: the clock runs to that time, and the next firing is one interval later. */
  lemma Fires(cfg: Config, lim: Limits, s: State, n: int)
    requires s.nextTick == map[0 := n] && s.now <= n
    requires forall l :: l in s.q.leases ==> l in s.expiresAt && s.expiresAt[l] > n
    requires forall id :: id in s.q.ops ==> MayWait(lim, s, id, n)
    ensures Reaches(cfg, lim, s, s.(now := n, nextTick := map[0 := n + CollectEvery(cfg.ttl)]))
  {
    var due := s.(now := n);
    var ticked := due.(nextTick := map[0 := n + CollectEvery(cfg.ttl)]);
    assert Next(cfg, due, Tick(0)) == ticked;
    ReachesSelf(cfg, lim, ticked);
    StepReaches(cfg, lim, due, Tick(0), ticked);
    if s.now < n {
      assert Next(cfg, s, Advance(n)) == due;
      StepReaches(cfg, lim, s, Advance(n), ticked);
    } else {
      assert due == s;
    }
  }

  lemma TimePasses(cfg: Config, lim: Limits, s: State, n: int, x: int)
    requires s.nextTick == map[0 := n] && s.now <= x <= n
    requires forall id :: id in s.q.ops ==> MayWait(lim, s, id, x)
    ensures Reaches(cfg, lim, s, s.(now := x, nextTick := map[0 := n]))
  {
    var t := s.(now := x, nextTick := map[0 := n]);
    ReachesSelf(cfg, lim, t);
    if s.now < x { StepReaches(cfg, lim, s, Advance(x), t); }
  }

  /** A limit that reaches to x reaches to every time before. */
  lemma WaitsUntil(lim: Limits, s: State, t: State, x: int, y: int)
    requires t.q == s.q && t.since == s.since && t.grantedAt == s.grantedAt && y <= x
    requires forall id :: id in s.q.ops ==> MayWait(lim, s, id, x)
    ensures forall id :: id in t.q.ops ==> MayWait(lim, t, id, y)
  {
  }

  /**
   * The clock of a lone replica runs on to x while its timer fires, as long as no lease is due at any firing before x;
   * `bound` is the last of them, k firings after the next one.
   */
  lemma {:induction false} ClockRuns(cfg: Config, lim: Limits, s: State, n: int, k: int, bound: int, x: int)
    returns (n': int, k': int)
    requires s.nextTick == map[0 := n] && s.now <= x && s.now <= n && k >= -1
    requires bound == n + k * CollectEvery(cfg.ttl) && x <= bound + CollectEvery(cfg.ttl)
    requires forall l :: l in s.q.leases ==> l in s.expiresAt && s.expiresAt[l] > bound
    requires forall id :: id in s.q.ops ==> MayWait(lim, s, id, x)
    ensures k' >= -1 && bound == n' + k' * CollectEvery(cfg.ttl) && x <= n'
    ensures Reaches(cfg, lim, s, s.(now := x, nextTick := map[0 := n']))
    decreases k + 1
  {
    if x <= n {
      n', k' := n, k;
      TimePasses(cfg, lim, s, n, x);
    } else {
      var every := CollectEvery(cfg.ttl);
      FiringsLeft(n, k, every, bound, x);
      var ticked := s.(now := n, nextTick := map[0 := n + every]);
      WaitsUntil(lim, s, s, x, n);
      Fires(cfg, lim, s, n);
      WaitsUntil(lim, s, ticked, x, x);
      n', k' := ClockRuns(cfg, lim, ticked, n + every, k - 1, bound, x);
      assert ticked.(now := x, nextTick := map[0 := n']) == s.(now := x, nextTick := map[0 := n']);
      Onward(cfg, lim, s, ticked, s.(now := x, nextTick := map[0 := n']));
    }
  }

  lemma FiringsLeft(n: int, k: int, every: int, bound: int, x: int)
    requires every > 0 && bound == n + k * every && n < x <= bound + every && k >= -1
    ensures k >= 0 && bound >= n && bound == n + every + (k - 1) * every
  {
    OneTickLess(k, every);
    TicksAhead(k, every);
  }

  lemma TicksAhead(k: int, every: int)
    requires every > 0
    ensures k >= 0 ==> k * every >= 0
    ensures k == -1 ==> k * every == -every
  {
  }

  /** A grant of tenant "t" by replica 0, waiting for its browser. */
  function Waiting(cfg: Config, at: int, now: int, n: int): State {
    State(Q.State(map["t" := 1], map[0 := Q.Op(0, "t", Q.Leasing)], map[], {}), now, map["t" := at + KeyLife(cfg.ttl)],
          map[0 := n], map[0 := at], map[], map[], map[0 := at])
  }

  /** The same grant once it has become lease "l". */
  function Leased(cfg: Config, at: int, ready: int, now: int, n: int): State {
    State(Q.State(map["t" := 1], map[], map["l" := Q.Lease(0, "t")], {"l"}), now, map["t" := at + KeyLife(cfg.ttl)],
          map[0 := n], map[0 := at], map["l" := at], map["l" := ready + cfg.ttl], map[0 := at])
  }

  /** One replica running, nothing granted yet. */
  function NoneYet(now: int, n: int): State { Start().(now := now, nextTick := map[0 := n]) }

  lemma GrantReached(cfg: Config, lim: Limits, at: int, n: int)
    requires cfg.max >= 1
    ensures Reaches(cfg, lim, NoneYet(at, n), Waiting(cfg, at, at, n))
  {
    var s := NoneYet(at, n);
    var e1, e2 := Do(Q.Incr(0, 0, "t", true), false), Do(Q.ExpirySet(0, true), false);
    var s1 := Next(cfg, s, e1);
    var t := Waiting(cfg, at, at, n);
    assert Next(cfg, s1, e2) == t;
    ReachesSelf(cfg, lim, t);
    StepReaches(cfg, lim, s1, e2, t);
    StepReaches(cfg, lim, s, e1, t);
  }

  lemma LeaseReached(cfg: Config, lim: Limits, at: int, ready: int, n: int)
    requires ready - at <= lim.wait
    ensures Reaches(cfg, lim, Waiting(cfg, at, ready, n), Leased(cfg, at, ready, ready, n))
  {
    var s, t, e := Waiting(cfg, at, ready, n), Leased(cfg, at, ready, ready, n), Do(Q.LeaseReady(0, "l"), false);
    assert Next(cfg, s, e) == t;
    ReachesSelf(cfg, lim, t);
    StepReaches(cfg, lim, s, e, t);
  }

  lemma BootReached(cfg: Config, lim: Limits)
    ensures Reaches(cfg, lim, Start(), NoneYet(0, CollectEvery(cfg.ttl)))
  {
    var t := NoneYet(0, CollectEvery(cfg.ttl));
    assert Next(cfg, Start(), Boot(0)) == t;
    ReachesSelf(cfg, lim, t);
    StepReaches(cfg, lim, Start(), Boot(0), t);
  }

  /** The clock runs while nothing is granted, while the grant waits for its browser, and while the lease lives. */
  lemma NoneRuns(cfg: Config, lim: Limits, now: int, n: int, k: int, bound: int, x: int) returns (n': int, k': int)
    requires now <= x && now <= n && k >= -1
    requires bound == n + k * CollectEvery(cfg.ttl) && x <= bound + CollectEvery(cfg.ttl)
    ensures k' >= -1 && bound == n' + k' * CollectEvery(cfg.ttl) && x <= n'
    ensures Reaches(cfg, lim, NoneYet(now, n), NoneYet(x, n'))
  {
    n', k' := ClockRuns(cfg, lim, NoneYet(now, n), n, k, bound, x);
  }

  lemma GrantRuns(cfg: Config, lim: Limits, at: int, n: int, k: int, bound: int, x: int) returns (n': int, k': int)
    requires at <= x && at <= n && k >= -1 && (lim.lag.None? || x <= at + lim.wait)
    requires bound == n + k * CollectEvery(cfg.ttl) && x <= bound + CollectEvery(cfg.ttl)
    ensures k' >= -1 && bound == n' + k' * CollectEvery(cfg.ttl) && x <= n'
    ensures Reaches(cfg, lim, Waiting(cfg, at, at, n), Waiting(cfg, at, x, n'))
  {
    n', k' := ClockRuns(cfg, lim, Waiting(cfg, at, at, n), n, k, bound, x);
  }

  lemma LeaseRuns(cfg: Config, lim: Limits, at: int, ready: int, n: int, k: int, bound: int, x: int)
    returns (n': int, k': int)
    requires ready <= x && ready <= n && k >= -1 && ready + cfg.ttl > bound
    requires bound == n + k * CollectEvery(cfg.ttl) && x <= bound + CollectEvery(cfg.ttl)
    ensures k' >= -1 && bound == n' + k' * CollectEvery(cfg.ttl) && x <= n'
    ensures Reaches(cfg, lim, Leased(cfg, at, ready, ready, n), Leased(cfg, at, ready, x, n'))
  {
    n', k' := ClockRuns(cfg, lim, Leased(cfg, at, ready, ready, n), n, k, bound, x);
  }

  /** From the start a grant at any time, with the timer's next firings known. */
  lemma GrantAt(cfg: Config, lim: Limits, k: int, at: int) returns (n': int, k': int)
    requires cfg.max >= 1 && k >= -1 && 0 <= at
    requires var every := CollectEvery(cfg.ttl); at <= every + k * every + every
    ensures var every := CollectEvery(cfg.ttl); k' >= -1 && every + k * every == n' + k' * every && at <= n'
    ensures Reaches(cfg, lim, Start(), Waiting(cfg, at, at, n'))
  {
    var every := CollectEvery(cfg.ttl);
    BootReached(cfg, lim);
    n', k' := NoneRuns(cfg, lim, 0, every, k, every + k * every, at);
    Onward(cfg, lim, Start(), NoneYet(0, every), NoneYet(at, n'));
    GrantReached(cfg, lim, at, n');
    Onward(cfg, lim, Start(), NoneYet(at, n'), Waiting(cfg, at, at, n'));
  }

  lemma LeaseAt(cfg: Config, lim: Limits, k: int, at: int, w: int) returns (n': int, k': int)
    requires cfg.max >= 1 && k >= -1 && 0 <= at && 0 <= w <= lim.wait
    requires var every := CollectEvery(cfg.ttl); at + w <= every + k * every + every
    ensures var every := CollectEvery(cfg.ttl); k' >= -1 && every + k * every == n' + k' * every && at + w <= n'
    ensures Reaches(cfg, lim, Start(), Leased(cfg, at, at + w, at + w, n'))
  {
    var every := CollectEvery(cfg.ttl);
    var n1, k1 := GrantAt(cfg, lim, k, at);
    n', k' := GrantRuns(cfg, lim, at, n1, k1, every + k * every, at + w);
    Onward(cfg, lim, Start(), Waiting(cfg, at, at, n1), Waiting(cfg, at, at + w, n'));
    LeaseReached(cfg, lim, at, at + w, n');
    Onward(cfg, lim, Start(), Waiting(cfg, at, at + w, n'), Leased(cfg, at, at + w, at + w, n'));
  }

  /** And a lease of it after w, that lives on to x. */
  lemma LeaseLives(cfg: Config, lim: Limits, k: int, at: int, w: int, x: int) returns (n': int, k': int)
    requires cfg.max >= 1 && k >= -1 && 0 <= at && 0 <= w <= lim.wait && at + w <= x
    requires var every := CollectEvery(cfg.ttl);
             every + k * every < at + w + cfg.ttl && x <= every + k * every + every
    ensures var every := CollectEvery(cfg.ttl); k' >= -1 && every + k * every == n' + k' * every && x <= n'
    ensures Reaches(cfg, lim, Start(), Leased(cfg, at, at + w, x, n'))
  {
    var every := CollectEvery(cfg.ttl);
    var n1, k1 := LeaseAt(cfg, lim, k, at, w);
    n', k' := LeaseRuns(cfg, lim, at, at + w, n1, k1, every + k * every, x);
    Onward(cfg, lim, Start(), Leased(cfg, at, at + w, at + w, n1), Leased(cfg, at, at + w, x, n'));
  }

  /** The remainder puts the lease's deadline just after a firing of the timer. */
  lemma JustMissed(span: int, every: int) returns (at: int, k: int)
    requires span >= 0 && every > 0
    ensures 0 < at <= every && k >= 0 && at + span == every + k * every
  {
    k := span / every;
    at := every + k * every - span;
    assert span == k * every + span % every;
  }

  /** A prompt run that ends with the tenant's key due and a lease of it still alive. */
  ghost predicate LeaseCanMeetExpiry(cfg: Config, lim: Limits) {
    exists s, t :: Reaches(cfg, lim, Start(), s) && Enabled(cfg, s, Do(Q.Expire(t), false)) && Q.LeasesOf(s.q, t) != {}
  }

  lemma UnsafeMeetsExpiry(cfg: Config, lim: Limits)
    requires cfg.ttl >= 1 && cfg.max >= 1 && lim.wait >= 0 && !Safe(cfg, lim.wait)
    ensures LeaseCanMeetExpiry(cfg, lim)
  {
    var every, life := CollectEvery(cfg.ttl), KeyLife(cfg.ttl);
    var w := Min(lim.wait, life);
    var at, k := JustMissed(w + cfg.ttl - 1, every);
    var n, _ := LeaseLives(cfg, lim, k, at, w, at + life);
    var last := Leased(cfg, at, at + w, at + life, n);
    assert "l" in Q.LeasesOf(last.q, "t") && Enabled(cfg, last, Do(Q.Expire("t"), false));
  }

  /**
   * Whatever the other limits are: no lease ever meets the expiry of the key it is counted under, over all runs within
   * the limits, exactly when wait, lease time and collection interval together fit into the key's life.
   */
  lemma LeasesOutlivedExactly(cfg: Config, lim: Limits)
    requires cfg.ttl >= 1 && cfg.max >= 1 && lim.wait >= 0
    ensures !LeaseCanMeetExpiry(cfg, lim) <==> Safe(cfg, lim.wait)
  {
    if Safe(cfg, lim.wait) {
      forall s, t | Reaches(cfg, lim, Start(), s) && Enabled(cfg, s, Do(Q.Expire(t), false))
        ensures Q.LeasesOf(s.q, t) == {}
      {
        var es :| IsRun(cfg, Start(), es) && InTime(cfg, lim, Start(), es) && After(cfg, Start(), es) == s;
        RunKeepsInv(cfg, lim, Start(), es);
        SafeIsTimely(cfg, lim.wait, s, t);
      }
    } else {
      UnsafeMeetsExpiry(cfg, lim);
    }
  }

  /** In settings: up to 28.8 minutes of lease time the key lives fifty times as long, and then for a day. */
  lemma SafeSettings(cfg: Config, wait: int)
    requires cfg.ttl >= 5000 && wait >= 0
    ensures Safe(cfg, wait) <==>
            if cfg.ttl <= 1_728_000 then wait + Max(1000, cfg.ttl / 4) <= 49 * cfg.ttl
            else wait + cfg.ttl + cfg.ttl / 4 <= 86_400_000
    ensures Safe(cfg, 0) <==> cfg.ttl <= 69_120_000
    ensures cfg.ttl == 120_000 ==> (Safe(cfg, wait) <==> wait <= 5_850_000)
  {
  }

  // ------------------------------------------------------------------ a browser that never comes

  /**
   * An operation that waits for a browser longer than the key lives meets its expiry under every setting, and then
   * the cap can be exceeded: leaseRemoteBrowser has no time limit.
   */
  lemma StuckOperationMeetsExpiry(cfg: Config) returns (s: State)
    requires cfg.ttl >= 1 && cfg.max >= 1
    ensures Reaches(cfg, OnlyBrowsers(0), Start(), s) && Q.LeasesOf(s.q, "t") == {} &&
            Enabled(cfg, s, Do(Q.Expire("t"), false))
    ensures Q.CanExceed(cfg.max, Q.Next(cfg.max, s.q, Q.Expire("t")), "t")
  {
    var every, life := CollectEvery(cfg.ttl), KeyLife(cfg.ttl);
    var at, k := JustMissed(life, every);
    var n1, k1 := GrantAt(cfg, OnlyBrowsers(0), k, at);
    var n2, _ := GrantRuns(cfg, OnlyBrowsers(0), at, n1, k1, every + k * every, at + life);
    s := Waiting(cfg, at, at + life, n2);
    Onward(cfg, OnlyBrowsers(0), Start(), Waiting(cfg, at, at, n1), s);
    WaitingInv(cfg, at, at + life, n2);
    assert 0 in Q.Holders(s.q, "t");
    Q.ExpiryBreaksCapExactly(cfg.max, s.q, "t");
  }

  lemma WaitingInv(cfg: Config, at: int, now: int, n: int)
    requires cfg.max >= 1
    ensures Q.Inv(cfg.max, Waiting(cfg, at, now, n).q)
  {
    var q := Waiting(cfg, at, now, n).q;
    forall t ensures Q.TenantInv(cfg.max, q, t) {
      assert Q.Holders(q, t) == (if t == "t" then {0} else {}) && Q.LeasesOf(q, t) == {} && Q.Rejections(q, t) == {};
    }
  }
}
