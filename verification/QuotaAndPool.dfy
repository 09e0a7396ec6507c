/**
 * The tenant quota in front of the browser pools (apps/worker-ingest/src/lib/browserManagerClient.js,
 * in-process path): one system whose steps are a step of the quota table, of one pool engine, or of both.
 */
module QuotaAndPool {
  import opened Basics
  import Q = TenantQuota
  import P = BrowserPool

  type PoolKey = string
  type CallId = nat

  datatype Owner = Owner(tenant: Q.Tenant, pool: PoolKey)

  /** owners remembers for every call which tenant made it and which pool serves it. */
  datatype System = System(quota: Q.State, pools: map<PoolKey, P.State>, owners: map<CallId, Owner>)

  datatype Config = Config(quota: Q.Config, pool: P.Config)

  datatype Event =
    | Call(id: CallId, owner: Owner, rejectFast: bool, memory: P.Memory)
    | Wake(id: CallId, memory: P.Memory)
    | WaitTimeout(id: CallId)
    | PoolStep(pool: PoolKey, inner: P.Event)
    | HandleReady(id: CallId)
    | AcquireThrew(id: CallId)
    | ReleaseHandle(id: CallId)
    | ReleaseDone(id: CallId)

  const INITIAL := System(Q.INITIAL, map[], map[])

  function Pool(s: System, k: PoolKey): P.State { if k in s.pools then s.pools[k] else P.INITIAL }

  function PoolCall(s: System, id: CallId): Option<P.Phase> {
    if id in s.owners && id in Pool(s, s.owners[id].pool).calls
    then Some(Pool(s, s.owners[id].pool).calls[id].phase) else None
  }

  function WithPool(cfg: Config, s: System, k: PoolKey, e: P.Event): System
    requires P.Enabled(Pool(s, k), e)
  {
    s.(pools := s.pools[k := P.Next(cfg.pool, Pool(s, k), e)])
  }

  function WithQuota(cfg: Config, s: System, e: Q.Event): System
    requires Q.Enabled(s.quota, e)
  {
    s.(quota := Q.Next(cfg.quota, s.quota, e))
  }

  /** Starting a context, and releasing one of a limited tenant, goes through the quota wrapper. */
  predicate PoolInternal(cfg: Config, s: System, e: P.Event) {
    !e.Start? && (e.Release? ==> e.id in s.owners && Q.QuotaFor(cfg.quota, s.owners[e.id].tenant) == 0)
  }

  predicate Enabled(cfg: Config, s: System, e: Event) {
    match e
    case Call(id, owner, rejectFast, memory) =>
      id !in s.owners && id !in s.quota.calls && id !in Pool(s, owner.pool).calls
    case Wake(id, memory) =>
      Q.Enabled(s.quota, Q.Resume(id)) && id in s.owners && id !in Pool(s, s.owners[id].pool).calls
    case WaitTimeout(id) => Q.Enabled(s.quota, Q.Timeout(id))
    case PoolStep(k, inner) => PoolInternal(cfg, s, inner) && P.Enabled(Pool(s, k), inner)
    case HandleReady(id) => Q.Enabled(s.quota, Q.Acquired(id)) && PoolCall(s, id).Some? && PoolCall(s, id).value.Held?
    case AcquireThrew(id) => Q.Enabled(s.quota, Q.AcquireFailed(id)) && PoolCall(s, id).None?
    case ReleaseHandle(id) =>
      Q.Enabled(s.quota, Q.ReleaseCalled(id)) && id in s.owners && P.Enabled(Pool(s, s.owners[id].pool), P.Release(id))
    case ReleaseDone(id) => Q.Enabled(s.quota, Q.ReleaseSettled(id)) && PoolCall(s, id).None?
  }

  /** When the quota admits the call, acquire() starts in the same stretch of code. */
  function Admitted(cfg: Config, s: System, id: CallId, memory: P.Memory): System {
    if id in s.owners && id !in Pool(s, s.owners[id].pool).calls &&
       (Q.InPhase(s.quota, id, Q.Acquiring) || Q.QuotaFor(cfg.quota, s.owners[id].tenant) == 0)
    then WithPool(cfg, s, s.owners[id].pool, P.Start(id, P.InProcess, memory))
    else s
  }

  function Next(cfg: Config, s: System, e: Event): System
    requires Enabled(cfg, s, e)
  {
    match e
    case Call(id, owner, rejectFast, memory) =>
      Admitted(cfg, WithQuota(cfg, s, Q.Start(id, owner.tenant, rejectFast)).(owners := s.owners[id := owner]), id,
               memory)
    case Wake(id, memory) => Admitted(cfg, WithQuota(cfg, s, Q.Resume(id)), id, memory)
    case WaitTimeout(id) => WithQuota(cfg, s, Q.Timeout(id))
    case PoolStep(k, inner) => WithPool(cfg, s, k, inner)
    case HandleReady(id) => WithQuota(cfg, s, Q.Acquired(id))
    case AcquireThrew(id) => WithQuota(cfg, s, Q.AcquireFailed(id))
    case ReleaseHandle(id) => WithPool(cfg, WithQuota(cfg, s, Q.ReleaseCalled(id)), s.owners[id].pool, P.Release(id))
    case ReleaseDone(id) => WithQuota(cfg, s, Q.ReleaseSettled(id))
  }

  ghost predicate IsRun(cfg: Config, s: System, es: seq<Event>)
    decreases |es|
  {
    es == [] || (Enabled(cfg, s, es[0]) && IsRun(cfg, Next(cfg, s, es[0]), es[1..]))
  }

  ghost function After(cfg: Config, s: System, es: seq<Event>): System
    requires IsRun(cfg, s, es)
    decreases |es|
  {
    if es == [] then s else After(cfg, Next(cfg, s, es[0]), es[1..])
  }

  // ------------------------------------------------------------------ invariant

  /** A pool never serves a call of a limited tenant that the quota is not counting. */
  ghost predicate Linked(cfg: Config, s: System) {
    && (forall k, id :: id in Pool(s, k).calls ==> id in s.owners && s.owners[id].pool == k)
    && (forall id :: PoolCall(s, id).Some? && Q.QuotaFor(cfg.quota, s.owners[id].tenant) > 0
                     ==> Q.IsCounted(s.quota, id, s.owners[id].tenant))
    && (forall id :: id in s.quota.calls ==> id in s.owners && s.owners[id].tenant == s.quota.calls[id].tenant)
  }

  ghost predicate PartsInv(cfg: Config, s: System) {
    Q.Inv(cfg.quota, s.quota) && forall k :: P.Inv(cfg.pool, Pool(s, k))
  }

  ghost predicate Inv(cfg: Config, s: System) {
    && PartsInv(cfg, s)
    && Linked(cfg, s)
  }

  predicate ContextOpen(p: P.Phase) { p.Opening? || p.Held? || p.Closing? }

  /** The contexts a tenant has in any pool: being opened, in use, or being closed. */
  ghost function OpenContexts(s: System, t: Q.Tenant): set<CallId> {
    set id | id in s.owners && s.owners[id].tenant == t && PoolCall(s, id).Some? && ContextOpen(PoolCall(s, id).value)
  }

  /** What a quota step on call e may do to the other calls. */
  ghost predicate QuotaFrame(q: Q.State, q': Q.State, e: CallId) {
    forall id :: id != e ==>
      && (id in q'.calls <==> id in q.calls)
      && (id in q.calls ==> q'.calls[id].tenant == q.calls[id].tenant)
      && (id in q.calls && Q.CountsAgainstQuota(q.calls[id].phase) ==> Q.CountsAgainstQuota(q'.calls[id].phase))
  }

  lemma QuotaStepFrames(cfg: Q.Config, q: Q.State, e: Q.Event)
    requires Q.Enabled(q, e)
    ensures QuotaFrame(q, Q.Next(cfg, q, e), e.id)
  {
  }

  /** A step on a call leaves it at its tenant; a call that was given back is not signalled. */
  lemma QuotaStepKeepsSelf(cfg: Q.Config, q: Q.State, e: Q.Event)
    requires Q.Enabled(q, e)
    ensures var q' := Q.Next(cfg, q, e);
            e.id in q'.calls ==> q'.calls[e.id].tenant == if e.Start? then e.tenant else q.calls[e.id].tenant
  {
  }

  /** The three clauses of the link for one call. */
  ghost predicate LinkedCall(cfg: Config, q: Q.State, owners: map<CallId, Owner>, inPool: bool, id: CallId) {
    && (inPool && id in owners && Q.QuotaFor(cfg.quota, owners[id].tenant) > 0 ==>
        Q.IsCounted(q, id, owners[id].tenant))
    && (id in q.calls ==> id in owners && owners[id].tenant == q.calls[id].tenant)
  }

  lemma FrameKeepsCall(cfg: Config, q: Q.State, q': Q.State, owners: map<CallId, Owner>, inPool: bool, e: CallId,
                       id: CallId)
    requires LinkedCall(cfg, q, owners, inPool, id) && QuotaFrame(q, q', e) && id != e
    ensures LinkedCall(cfg, q', owners, inPool, id)
  {
  }

  lemma LinkedAfterQuota(cfg: Config, s: System, q': Q.State, id: CallId)
    requires Linked(cfg, s) && QuotaFrame(s.quota, q', id) && id in s.owners
    requires id in q'.calls ==> q'.calls[id].tenant == s.owners[id].tenant
    requires PoolCall(s, id).Some? && Q.QuotaFor(cfg.quota, s.owners[id].tenant) > 0
             ==> Q.IsCounted(q', id, s.owners[id].tenant)
    ensures Linked(cfg, s.(quota := q'))
  {
    var s' := s.(quota := q');
    assert forall k :: Pool(s', k) == Pool(s, k);
    assert forall i :: PoolCall(s', i) == PoolCall(s, i);
    forall i | i != id ensures LinkedCall(cfg, q', s.owners, PoolCall(s, i).Some?, i) {
      FrameKeepsCall(cfg, s.quota, q', s.owners, PoolCall(s, i).Some?, id, i);
    }
  }

  lemma QuotaStepKeepsLink(cfg: Config, s: System, e: Q.Event)
    requires Linked(cfg, s) && Q.Enabled(s.quota, e)
    requires e.id in s.owners && (e.Start? ==> e.tenant == s.owners[e.id].tenant)
    requires PoolCall(s, e.id).Some? && Q.QuotaFor(cfg.quota, s.owners[e.id].tenant) > 0
             ==> e.Acquired? || e.ReleaseCalled?
    ensures Linked(cfg, WithQuota(cfg, s, e))
  {
    QuotaStepFrames(cfg.quota, s.quota, e);
    QuotaStepKeepsSelf(cfg.quota, s.quota, e);
    LinkedAfterQuota(cfg, s, Q.Next(cfg.quota, s.quota, e), e.id);
  }

  lemma PoolStepAddsNoCall(cfg: P.Config, p: P.State, e: P.Event)
    requires P.Enabled(p, e)
    ensures forall id :: id in P.Next(cfg, p, e).calls ==> id in p.calls || (e.Start? && id == e.id)
  {
  }

  lemma PoolStepKeepsLink(cfg: Config, s: System, k: PoolKey, e: P.Event)
    requires Linked(cfg, s) && P.Enabled(Pool(s, k), e)
    requires e.Start? ==> e.id in s.owners && s.owners[e.id].pool == k
    requires e.Start? && Q.QuotaFor(cfg.quota, s.owners[e.id].tenant) > 0
             ==> Q.IsCounted(s.quota, e.id, s.owners[e.id].tenant)
    ensures Linked(cfg, WithPool(cfg, s, k, e))
  {
    PoolStepAddsNoCall(cfg.pool, Pool(s, k), e);
    LinkedAfterPool(cfg, s, k, P.Next(cfg.pool, Pool(s, k), e), if e.Start? then {e.id} else {});
  }

  lemma LinkedAfterPool(cfg: Config, s: System, k: PoolKey, p': P.State, added: set<CallId>)
    requires Linked(cfg, s)
    requires forall id :: id in p'.calls ==> id in Pool(s, k).calls || id in added
    requires forall id :: id in added ==> id in s.owners && s.owners[id].pool == k
    requires forall id :: id in added && Q.QuotaFor(cfg.quota, s.owners[id].tenant) > 0
                          ==> Q.IsCounted(s.quota, id, s.owners[id].tenant)
    ensures Linked(cfg, s.(pools := s.pools[k := p']))
  {
    var s' := s.(pools := s.pools[k := p']);
    assert forall j :: Pool(s', j) == if j == k then p' else Pool(s, j);
    forall id | PoolCall(s', id).Some? && id !in added ensures PoolCall(s, id).Some? {
    }
  }

  lemma QuotaStepKeepsInv(cfg: Config, s: System, e: Q.Event)
    requires Inv(cfg, s) && Q.Enabled(s.quota, e)
    requires e.id in s.owners && (e.Start? ==> e.tenant == s.owners[e.id].tenant)
    requires PoolCall(s, e.id).Some? && Q.QuotaFor(cfg.quota, s.owners[e.id].tenant) > 0
             ==> e.Acquired? || e.ReleaseCalled?
    ensures Inv(cfg, WithQuota(cfg, s, e))
  {
    QuotaStepKeepsLink(cfg, s, e);
    Q.StepKeepsInv(cfg.quota, s.quota, e);
    var s' := WithQuota(cfg, s, e);
    forall k ensures P.Inv(cfg.pool, Pool(s', k)) {
      assert P.Inv(cfg.pool, Pool(s, k));
    }
  }

  lemma PoolStepKeepsInv(cfg: Config, s: System, k: PoolKey, e: P.Event)
    requires Inv(cfg, s) && P.Enabled(Pool(s, k), e)
    requires e.Start? ==> e.id in s.owners && s.owners[e.id].pool == k
    requires e.Start? && Q.QuotaFor(cfg.quota, s.owners[e.id].tenant) > 0
             ==> Q.IsCounted(s.quota, e.id, s.owners[e.id].tenant)
    ensures Inv(cfg, WithPool(cfg, s, k, e))
  {
    PoolStepKeepsLink(cfg, s, k, e);
    P.StepKeepsInv(cfg.pool, Pool(s, k), e);
    var s' := WithPool(cfg, s, k, e);
    forall j ensures P.Inv(cfg.pool, Pool(s', j)) {
      assert P.Inv(cfg.pool, Pool(s, j));
    }
  }

  lemma AdmittedKeepsInv(cfg: Config, s: System, id: CallId, memory: P.Memory)
    requires Inv(cfg, s)
    ensures Inv(cfg, Admitted(cfg, s, id, memory))
  {
    if Admitted(cfg, s, id, memory) != s {
      PoolStepKeepsInv(cfg, s, s.owners[id].pool, P.Start(id, P.InProcess, memory));
    }
  }

  lemma NewOwnerKeepsInv(cfg: Config, s: System, id: CallId, owner: Owner)
    requires Inv(cfg, s) && id !in s.owners
    ensures Inv(cfg, s.(owners := s.owners[id := owner]))
  {
    var s' := s.(owners := s.owners[id := owner]);
    NewOwnerKeepsLink(cfg, s, id, owner);
    forall k ensures P.Inv(cfg.pool, Pool(s', k)) { assert Pool(s', k) == Pool(s, k); }
  }

  lemma NewOwnerKeepsLink(cfg: Config, s: System, id: CallId, owner: Owner)
    requires Linked(cfg, s) && id !in s.owners
    ensures Linked(cfg, s.(owners := s.owners[id := owner]))
  {
    var s' := s.(owners := s.owners[id := owner]);
    assert forall k :: Pool(s', k) == Pool(s, k);
    assert forall i :: i != id ==> PoolCall(s', i) == PoolCall(s, i);
    assert id !in Pool(s', owner.pool).calls;
  }

  lemma StepKeepsInv(cfg: Config, s: System, e: Event)
    requires Inv(cfg, s) && Enabled(cfg, s, e)
    ensures Inv(cfg, Next(cfg, s, e))
  {
    match e
    case Call(id, owner, rejectFast, memory) =>
      var known := s.(owners := s.owners[id := owner]);
      var start := Q.Start(id, owner.tenant, rejectFast);
      NewOwnerKeepsInv(cfg, s, id, owner);
      assert PoolCall(known, id).None?;
      QuotaStepKeepsInv(cfg, known, start);
      AdmittedKeepsInv(cfg, WithQuota(cfg, known, start), id, memory);
    case Wake(id, memory) =>
      QuotaStepKeepsInv(cfg, s, Q.Resume(id));
      AdmittedKeepsInv(cfg, WithQuota(cfg, s, Q.Resume(id)), id, memory);
    case WaitTimeout(id) => QuotaStepKeepsInv(cfg, s, Q.Timeout(id));
    case PoolStep(k, inner) => PoolStepKeepsInv(cfg, s, k, inner);
    case HandleReady(id) => QuotaStepKeepsInv(cfg, s, Q.Acquired(id));
    case AcquireThrew(id) => QuotaStepKeepsInv(cfg, s, Q.AcquireFailed(id));
    case ReleaseHandle(id) =>
      QuotaStepKeepsInv(cfg, s, Q.ReleaseCalled(id));
      PoolStepKeepsInv(cfg, WithQuota(cfg, s, Q.ReleaseCalled(id)), s.owners[id].pool, P.Release(id));
    case ReleaseDone(id) => QuotaStepKeepsInv(cfg, s, Q.ReleaseSettled(id));
  }

  lemma {:induction false} RunKeepsInv(cfg: Config, s: System, es: seq<Event>)
    requires Inv(cfg, s) && IsRun(cfg, s, es)
    ensures Inv(cfg, After(cfg, s, es))
    decreases |es|
  {
    if es == [] {
    } else {
      StepKeepsInv(cfg, s, es[0]);
      RunKeepsInv(cfg, Next(cfg, s, es[0]), es[1..]);
    }
  }

  lemma InitialInv(cfg: Config)
    ensures Inv(cfg, INITIAL)
  {
    forall t ensures Q.TenantInv(cfg.quota, Q.INITIAL, t) { assert Q.Counted(Q.INITIAL, t) == {}; }
    assert P.Launches(P.INITIAL) == {};
    forall k ensures P.SlotExact(P.INITIAL, k) {
      assert P.ContextsAt(P.INITIAL, k) == {} && P.LeasesAt(P.INITIAL, k) == {};
    }
  }

  /**
   * Whatever the interleaving and however many pools a tenant uses, the contexts it has open
   * across all of them never outnumber the first positive limit configured for it, rounded
   * down (a limit below one means unlimited).
   */
  lemma TenantContextsBounded(cfg: Config, es: seq<Event>, t: Q.Tenant, i: nat)
    requires IsRun(cfg, INITIAL, es) && Q.LimitedBy(cfg.quota, t, i)
    ensures |OpenContexts(After(cfg, INITIAL, es), t)| <= Q.Candidates(cfg.quota, t)[i].Floor
  {
    InitialInv(cfg);
    RunKeepsInv(cfg, INITIAL, es);
    Q.QuotaIsFirstPositive(cfg.quota, t);
    var s := After(cfg, INITIAL, es);
    assert Q.TenantInv(cfg.quota, s.quota, t);
    OpenAreCounted(cfg, s, t);
    SubsetSize(OpenContexts(s, t), Q.Counted(s.quota, t));
  }

  /** The quota lets the call through: its tenant has no limit, or fewer calls counted than the limit. */
  ghost predicate LetThrough(cfg: Config, s: System, t: Q.Tenant) {
    forall i: nat :: Q.LimitedBy(cfg.quota, t, i) ==> |Q.Counted(s.quota, t)| < Q.Candidates(cfg.quota, t)[i].Floor
  }

  lemma LetThroughExactly(cfg: Config, s: System, id: CallId, t: Q.Tenant, rejectFast: bool)
    requires Q.Inv(cfg.quota, s.quota) && Q.Enabled(s.quota, Q.Start(id, t, rejectFast))
    ensures LetThrough(cfg, s, t) <==>
            Q.QuotaFor(cfg.quota, t) == 0 ||
            Q.InPhase(Q.Next(cfg.quota, s.quota, Q.Start(id, t, rejectFast)), id, Q.Acquiring)
  {
    Q.LimitedExactly(cfg.quota, t);
    Q.QuotaIsFirstPositive(cfg.quota, t);
    assert Q.TenantInv(cfg.quota, s.quota, t);
  }

  /** A new call reaches its pool exactly when the quota lets it through, and no other pool moves. */
  lemma CallReachesPoolExactly(cfg: Config, s: System, id: CallId, owner: Owner, rejectFast: bool, memory: P.Memory)
    requires Inv(cfg, s) && Enabled(cfg, s, Call(id, owner, rejectFast, memory))
    ensures var t, k := Next(cfg, s, Call(id, owner, rejectFast, memory)), owner.pool;
            t.pools == if LetThrough(cfg, s, owner.tenant)
                       then s.pools[k := P.Next(cfg.pool, Pool(s, k), P.Start(id, P.InProcess, memory))]
                       else s.pools
  {
    LetThroughExactly(cfg, s, id, owner.tenant, rejectFast);
  }

  lemma OpenAreCounted(cfg: Config, s: System, t: Q.Tenant)
    requires Linked(cfg, s) && Q.QuotaFor(cfg.quota, t) > 0
    ensures OpenContexts(s, t) <= Q.Counted(s.quota, t)
  {
    forall id | id in OpenContexts(s, t) ensures id in Q.Counted(s.quota, t) {
      assert PoolCall(s, id).Some? && Q.IsCounted(s.quota, id, t);
    }
  }
}
