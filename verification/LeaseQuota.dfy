/**
 * Cluster-wide context cap of the browser manager (apps/worker-ingest/src/browserManagerServer.js):
 * any number of replicas share one Redis counter per tenant, changed only by INCR, DECR and SET.
 *
 * A command may be lost before it runs, or run with its reply lost; both end in an error the
 * server turns into a 503 or swallows. Replicas may crash, and a counter key may expire.
 */
module LeaseQuota {
  import opened Basics

  type Tenant = string
  type Replica = nat
  type OpId = nat
  type LeaseId = string

  datatype Phase =
    | Rejecting  // INCR answered above the cap, the compensating DECR has not run
    | Granted    // INCR answered within the cap, PEXPIRE has not settled
    | Leasing    // awaiting leaseRemoteBrowser
    | Returning  // a lease or a failed leasing is being given back, DECR has not run
    | Resetting  // DECR answered below zero, SET 0 has not run

  datatype Op = Op(replica: Replica, tenant: Tenant, phase: Phase)

  datatype Lease = Lease(replica: Replica, tenant: Tenant)

  /** issued keeps every lease id ever handed out: leaseRemoteBrowser draws fresh random ids. */
  datatype State = State(
    counter: map<Tenant, int>, ops: map<OpId, Op>, leases: map<LeaseId, Lease>, issued: set<LeaseId>)

  const INITIAL := State(map[], map[], map[], {})

  datatype Event =
    | Incr(id: OpId, replica: Replica, tenant: Tenant, answered: bool)
    | Rollback(id: OpId, ran: bool)
    | ExpirySet(id: OpId, ok: bool)
    | LeaseReady(id: OpId, lease: LeaseId)
    | LeaseFailed(id: OpId)
    | Release(id: OpId, replica: Replica, lease: LeaseId)  // HTTP release, lease GC or shutdown
    | Decr(id: OpId, ran: bool, answered: bool)
    | Reset(id: OpId, ran: bool)
    | Crash(replica: Replica)
    | Expire(tenant: Tenant)

  function Counter(s: State, t: Tenant): int { if t in s.counter then s.counter[t] else 0 }

  predicate InPhase(s: State, id: OpId, p: Phase) { id in s.ops && s.ops[id].phase == p }

  predicate Enabled(s: State, e: Event) {
    match e
    case Incr(id, _, _, _) => id !in s.ops
    case Rollback(id, _) => InPhase(s, id, Rejecting)
    case ExpirySet(id, _) => InPhase(s, id, Granted)
    case LeaseReady(id, lease) => InPhase(s, id, Leasing) && lease !in s.issued
    case LeaseFailed(id) => InPhase(s, id, Leasing)
    case Release(id, _, _) => id !in s.ops
    case Decr(id, _, _) => InPhase(s, id, Returning)
    case Reset(id, _) => InPhase(s, id, Resetting)
    case Crash(_) => true
    case Expire(_) => true
  }

  function Added(s: State, t: Tenant, d: int): State { s.(counter := s.counter[t := Counter(s, t) + d]) }

  function Moved(s: State, id: OpId, p: Phase): State
    requires id in s.ops
  {
    s.(ops := s.ops[id := s.ops[id].(phase := p)])
  }

  function Ended(s: State, id: OpId): State { s.(ops := s.ops - {id}) }

  predicate LeasedBy(s: State, r: Replica, l: LeaseId) { l in s.leases && s.leases[l].replica == r }

  function Next(max: nat, s: State, e: Event): State
    requires Enabled(s, e)
  {
    match e
    case Incr(id, r, t, answered) =>
      var s1 := Added(s, t, 1);
      if !answered then s1
      else s1.(ops := s1.ops[id := Op(r, t, if Counter(s1, t) > max then Rejecting else Granted)])
    case Rollback(id, ran) => if ran then Ended(Added(s, s.ops[id].tenant, -1), id) else Ended(s, id)
    case ExpirySet(id, ok) => if ok then Moved(s, id, Leasing) else Ended(s, id)
    case LeaseReady(id, lease) =>
      Ended(s, id).(leases := s.leases[lease := Lease(s.ops[id].replica, s.ops[id].tenant)],
                    issued := s.issued + {lease})
    case LeaseFailed(id) => Moved(s, id, Returning)
    case Release(id, r, lease) =>
      if LeasedBy(s, r, lease)
      then s.(leases := s.leases - {lease}, ops := s.ops[id := Op(r, s.leases[lease].tenant, Returning)])
      else s
    case Decr(id, ran, answered) =>
      if !ran then Ended(s, id)
      else
        var s1 := Added(s, s.ops[id].tenant, -1);
        if answered && Counter(s1, s.ops[id].tenant) < 0 then Moved(s1, id, Resetting) else Ended(s1, id)
    case Reset(id, ran) =>
      if ran then Ended(s.(counter := s.counter[s.ops[id].tenant := 0]), id) else Ended(s, id)
    case Crash(r) =>
      s.(ops := map id | id in s.ops && s.ops[id].replica != r :: s.ops[id],
         leases := map l | l in s.leases && s.leases[l].replica != r :: s.leases[l])
    case Expire(t) => s.(counter := s.counter - {t})
  }

  ghost predicate IsRun(max: nat, s: State, es: seq<Event>)
    decreases |es|
  {
    es == [] || (Enabled(s, es[0]) && IsRun(max, Next(max, s, es[0]), es[1..]))
  }

  ghost function After(max: nat, s: State, es: seq<Event>): State
    requires IsRun(max, s, es)
    decreases |es|
  {
    if es == [] then s else After(max, Next(max, s, es[0]), es[1..])
  }

  // ------------------------------------------------------------------ invariant

  ghost function Rejections(s: State, t: Tenant): set<OpId> {
    set id | id in s.ops && s.ops[id].tenant == t && s.ops[id].phase == Rejecting
  }

  /** Operations that own one unit of the cap. */
  ghost function Holders(s: State, t: Tenant): set<OpId> {
    set id | id in s.ops && s.ops[id].tenant == t && s.ops[id].phase != Rejecting
  }

  ghost function LeasesOf(s: State, t: Tenant): set<LeaseId> {
    set l | l in s.leases && s.leases[l].tenant == t
  }

  /** Lost commands and crashes only ever leave the counter too high. */
  ghost predicate TenantInv(max: nat, s: State, t: Tenant) {
    && |Holders(s, t)| + |LeasesOf(s, t)| <= max
    && |Holders(s, t)| + |LeasesOf(s, t)| + |Rejections(s, t)| <= Counter(s, t)
  }

  ghost predicate Inv(max: nat, s: State) {
    && (forall t :: TenantInv(max, s, t))
    && (forall id :: id in s.ops ==> s.ops[id].phase != Resetting)
    && s.leases.Keys <= s.issued
  }

  function Bit(b: bool): int { if b then 1 else 0 }

  lemma OneOpMoved(s: State, s': State, id: OpId, t: Tenant)
    requires forall i :: i != id ==> (i in s'.ops <==> i in s.ops) && (i in s.ops ==> s'.ops[i] == s.ops[i])
    ensures |Holders(s', t)| - Bit(id in Holders(s', t)) == |Holders(s, t)| - Bit(id in Holders(s, t))
    ensures |Rejections(s', t)| - Bit(id in Rejections(s', t)) == |Rejections(s, t)| - Bit(id in Rejections(s, t))
  {
    SameButOne(Holders(s, t), Holders(s', t), id);
    SameButOne(Rejections(s, t), Rejections(s', t), id);
  }

  lemma OneLeaseMoved(s: State, s': State, l: LeaseId, t: Tenant)
    requires forall i :: i != l ==>
             (i in s'.leases <==> i in s.leases) && (i in s.leases ==> s'.leases[i] == s.leases[i])
    ensures |LeasesOf(s', t)| - Bit(l in LeasesOf(s', t)) == |LeasesOf(s, t)| - Bit(l in LeasesOf(s, t))
  {
    SameButOne(LeasesOf(s, t), LeasesOf(s', t), l);
  }

  lemma CrashKeepsTenant(max: nat, s: State, r: Replica, t: Tenant)
    requires TenantInv(max, s, t)
    ensures TenantInv(max, Next(max, s, Crash(r)), t)
  {
    var s' := Next(max, s, Crash(r));
    SubsetSize(Holders(s', t), Holders(s, t));
    SubsetSize(Rejections(s', t), Rejections(s, t));
    SubsetSize(LeasesOf(s', t), LeasesOf(s, t));
  }

  lemma LeaseStepKeepsTenant(max: nat, s: State, e: Event, t: Tenant)
    requires TenantInv(max, s, t) && Enabled(s, e) && s.leases.Keys <= s.issued
    requires e.LeaseReady? || e.Release?
    ensures TenantInv(max, Next(max, s, e), t)
  {
    var s' := Next(max, s, e);
    OneOpMoved(s, s', e.id, t);
    OneLeaseMoved(s, s', e.lease, t);
  }

  lemma IncrKeepsTenant(max: nat, s: State, e: Event, t: Tenant)
    requires TenantInv(max, s, t) && Enabled(s, e) && e.Incr?
    ensures TenantInv(max, Next(max, s, e), t)
  {
    var s' := Next(max, s, e);
    OneOpMoved(s, s', e.id, t);
    assert LeasesOf(s', t) == LeasesOf(s, t);
  }

  lemma OpStepKeepsTenant(max: nat, s: State, e: Event, t: Tenant)
    requires TenantInv(max, s, t) && Enabled(s, e) && !e.Crash? && !e.Expire? && !e.LeaseReady? && !e.Release? &&
             !e.Reset?
    ensures TenantInv(max, Next(max, s, e), t)
  {
    if e.Incr? {
      IncrKeepsTenant(max, s, e, t);
    } else {
      var s' := Next(max, s, e);
      OneOpMoved(s, s', e.id, t);
      assert LeasesOf(s', t) == LeasesOf(s, t);
    }
  }

  ghost predicate Idle(s: State, t: Tenant) {
    Holders(s, t) == {} && LeasesOf(s, t) == {} && Rejections(s, t) == {}
  }

  /** An expiry that only hits a tenant nothing is counted for. */
  ghost predicate Timely(s: State, e: Event) { e.Expire? ==> Idle(s, e.tenant) }

  lemma ExpiryKeepsTenant(max: nat, s: State, u: Tenant, t: Tenant)
    requires TenantInv(max, s, t) && (u == t ==> Idle(s, t))
    ensures TenantInv(max, Next(max, s, Expire(u)), t)
  {
    var s' := Next(max, s, Expire(u));
    assert Holders(s', t) == Holders(s, t) && LeasesOf(s', t) == LeasesOf(s, t) &&
           Rejections(s', t) == Rejections(s, t);
  }

  /** Every step keeps the cap; in particular DECR never answers below zero, so no reset is ever due. */
  lemma StepKeepsInv(max: nat, s: State, e: Event)
    requires Inv(max, s) && Enabled(s, e) && Timely(s, e)
    ensures Inv(max, Next(max, s, e))
  {
    var s' := Next(max, s, e);
    forall t ensures TenantInv(max, s', t) {
      assert TenantInv(max, s, t);
      match e
      case Crash(r) => CrashKeepsTenant(max, s, r, t);
      case Expire(u) => ExpiryKeepsTenant(max, s, u, t);
      case LeaseReady(_, _) => LeaseStepKeepsTenant(max, s, e, t);
      case Release(_, _, _) => LeaseStepKeepsTenant(max, s, e, t);
      case _ => OpStepKeepsTenant(max, s, e, t);
    }
    if e.Decr? {
      var t := s.ops[e.id].tenant;
      assert TenantInv(max, s, t) && e.id in Holders(s, t);
    }
  }

  ghost predicate TimelyRun(max: nat, s: State, es: seq<Event>)
    requires IsRun(max, s, es)
    decreases |es|
  {
    es == [] || (Timely(s, es[0]) && TimelyRun(max, Next(max, s, es[0]), es[1..]))
  }

  lemma {:induction false} RunKeepsInv(max: nat, s: State, es: seq<Event>)
    requires Inv(max, s) && IsRun(max, s, es) && TimelyRun(max, s, es)
    ensures Inv(max, After(max, s, es))
    decreases |es|
  {
    if es == [] {
    } else {
      StepKeepsInv(max, s, es[0]);
      RunKeepsInv(max, Next(max, s, es[0]), es[1..]);
    }
  }

  /**
   * Over all replicas, interleavings, lost commands, crashes and timely expiries: a tenant's live leases plus
   * everything on its way to or from being a lease stay within the cap, and the counter never
   * falls below them plus the rejections still to be rolled back.
   */
  lemma CapHoldsEverywhere(max: nat, es: seq<Event>, t: Tenant)
    requires IsRun(max, INITIAL, es) && TimelyRun(max, INITIAL, es)
    ensures var s := After(max, INITIAL, es);
            && |LeasesOf(s, t)| + |Holders(s, t)| <= max
            && |LeasesOf(s, t)| + |Holders(s, t)| + |Rejections(s, t)| <= Counter(s, t)
            && forall id :: id in s.ops ==> s.ops[id].phase != Resetting
  {
    forall u ensures TenantInv(max, INITIAL, u) {
      assert Holders(INITIAL, u) == {} && LeasesOf(INITIAL, u) == {} && Rejections(INITIAL, u) == {};
    }
    RunKeepsInv(max, INITIAL, es);
    assert TenantInv(max, After(max, INITIAL, es), t);
  }

  // ------------------------------------------------------------------ a lease is given back at most once

  /** How often a run gives back the quota of lease l, whoever asks for the release. */
  ghost function GiveBacks(max: nat, s: State, es: seq<Event>, l: LeaseId): nat
    requires IsRun(max, s, es)
    decreases |es|
  {
    if es == [] then 0
    else
      Bit(es[0].Release? && es[0].lease == l && LeasedBy(s, es[0].replica, l)) +
      GiveBacks(max, Next(max, s, es[0]), es[1..], l)
  }

  lemma {:induction false} GivenBackAtMostOnce(max: nat, s: State, es: seq<Event>, l: LeaseId)
    requires IsRun(max, s, es) && s.leases.Keys <= s.issued
    ensures GiveBacks(max, s, es, l) <= 1
    ensures l in s.issued && l !in s.leases ==> GiveBacks(max, s, es, l) == 0
    decreases |es|
  {
    if es == [] {
    } else {
      var s' := Next(max, s, es[0]);
      assert s.issued <= s'.issued;
      assert l in s.issued && l !in s.leases ==> l !in s'.leases;
      assert s'.leases.Keys <= s'.issued by {
        forall i | i in s'.leases ensures i in s'.issued {
          assert i in s.leases || (es[0].LeaseReady? && i == es[0].lease);
        }
      }
      GivenBackAtMostOnce(max, s', es[1..], l);
    }
  }

  // ------------------------------------------------------------------ no capacity is lost, and when it is

  /** Nothing was lost: every command ran and was answered, and no replica crashed. */
  predicate Clean(e: Event) {
    match e
    case Incr(_, _, _, answered) => answered
    case Rollback(_, ran) => ran
    case ExpirySet(_, ok) => ok
    case Decr(_, ran, answered) => ran && answered
    case Crash(_) => false
    case _ => true
  }

  ghost predicate Exact(s: State, t: Tenant) {
    |Holders(s, t)| + |LeasesOf(s, t)| + |Rejections(s, t)| == Counter(s, t)
  }

  lemma CleanStepKeepsExact(max: nat, s: State, e: Event, t: Tenant)
    requires Inv(max, s) && Enabled(s, e) && Timely(s, e) && Clean(e) && Exact(s, t)
    ensures Exact(Next(max, s, e), t)
  {
    var s' := Next(max, s, e);
    if e.Expire? {
      assert Holders(s', t) == Holders(s, t) && LeasesOf(s', t) == LeasesOf(s, t) &&
             Rejections(s', t) == Rejections(s, t);
    } else {
      OneOpMoved(s, s', e.id, t);
      if e.LeaseReady? || e.Release? {
        OneLeaseMoved(s, s', e.lease, t);
      } else {
        assert LeasesOf(s', t) == LeasesOf(s, t);
      }
    }
  }

  lemma {:induction false} CleanRunIsExact(max: nat, s: State, es: seq<Event>, t: Tenant)
    requires Inv(max, s) && Exact(s, t) && IsRun(max, s, es) && TimelyRun(max, s, es)
    requires forall e :: e in es ==> Clean(e)
    ensures Inv(max, After(max, s, es)) && Exact(After(max, s, es), t)
    decreases |es|
  {
    if es == [] {
    } else {
      StepKeepsInv(max, s, es[0]);
      CleanStepKeepsExact(max, s, es[0], t);
      CleanRunIsExact(max, Next(max, s, es[0]), es[1..], t);
    }
  }

  /**
   * After a clean run an acquire is refused exactly when leases, operations in flight and
   * roll-backs still under way already fill the cap; so two refusals can overlap and refuse
   * a third request although fewer than max leases exist, but only until they are rolled back.
   */
  lemma RefusedExactlyAtCap(max: nat, es: seq<Event>, id: OpId, r: Replica, t: Tenant)
    requires IsRun(max, INITIAL, es) && TimelyRun(max, INITIAL, es) && forall e :: e in es ==> Clean(e)
    requires id !in After(max, INITIAL, es).ops
    ensures var s := After(max, INITIAL, es);
            InPhase(Next(max, s, Incr(id, r, t, true)), id, Rejecting) <==>
            |LeasesOf(s, t)| + |Holders(s, t)| + |Rejections(s, t)| >= max
  {
    forall u ensures TenantInv(max, INITIAL, u) && Exact(INITIAL, u) {
      assert Holders(INITIAL, u) == {} && LeasesOf(INITIAL, u) == {} && Rejections(INITIAL, u) == {};
    }
    CleanRunIsExact(max, INITIAL, es, t);
  }

  lemma RunFrom(max: nat, s: State, e: Event, es: seq<Event>)
    requires Enabled(s, e) && IsRun(max, Next(max, s, e), es)
    ensures IsRun(max, s, [e] + es) && After(max, s, [e] + es) == After(max, Next(max, s, e), es)
  {
    assert ([e] + es)[1..] == es;
  }

  lemma {:induction false} RunsJoin(max: nat, s: State, es: seq<Event>, fs: seq<Event>)
    requires IsRun(max, s, es) && IsRun(max, After(max, s, es), fs)
    ensures IsRun(max, s, es + fs) && After(max, s, es + fs) == After(max, After(max, s, es), fs)
    decreases |es|
  {
    if es == [] {
      assert es + fs == fs;
    } else {
      RunsJoin(max, Next(max, s, es[0]), es[1..], fs);
      RunFrom(max, s, es[0], es[1..] + fs);
      assert es + fs == [es[0]] + (es[1..] + fs);
    }
  }

  // ------------------------------------------------------------------ an expiry breaks the cap exactly when untimely

  lemma {:induction false} FreshText(used: set<string>) returns (t: string)
    ensures t != ""
    ensures forall x :: x in used ==> |x| < |t|
    decreases used
  {
    if used == {} {
      t := "x";
    } else {
      var x :| x in used;
      var longer := FreshText(used - {x});
      t := longer + x;
      assert forall y :: y in used ==> y == x || y in used - {x};
    }
  }

  /** One more lease of t on some replica, and one more on the counter; nothing else. */
  ghost predicate OneMoreLease(s: State, s': State, t: Tenant, l: LeaseId) {
    && l !in s.leases && l !in s.issued && s'.ops == s.ops && s'.issued == s.issued + {l}
    && Counter(s', t) == Counter(s, t) + 1
    && s'.leases == s.leases[l := Lease(0, t)]
  }

  /** An acquire that nothing disturbs, from a counter below the cap. */
  lemma AcquireRun(max: nat, s: State, t: Tenant) returns (es: seq<Event>, l: LeaseId)
    requires Counter(s, t) < max && s.leases.Keys <= s.issued
    ensures IsRun(max, s, es) && (forall e :: e in es ==> Clean(e) && !e.Expire?)
    ensures OneMoreLease(s, After(max, s, es), t, l)
  {
    var id := FreshNumber(s.ops.Keys);
    l := FreshText(s.issued);
    var e1, e2, e3 := Incr(id, 0, t, true), ExpirySet(id, true), LeaseReady(id, l);
    var s1 := Next(max, s, e1);
    var s2 := Next(max, s1, e2);
    var s3 := Next(max, s2, e3);
    assert s3.ops == s.ops;
    assert [e3] + [] == [e3];
    RunFrom(max, s2, e3, []);
    RunFrom(max, s1, e2, [e3]);
    RunFrom(max, s, e1, [e2] + [e3]);
    es := [e1] + ([e2] + [e3]);
  }

  lemma {:induction false} AcquireMany(max: nat, s: State, t: Tenant, n: nat) returns (es: seq<Event>)
    requires Counter(s, t) + n <= max && s.leases.Keys <= s.issued
    ensures IsRun(max, s, es) && (forall e :: e in es ==> Clean(e) && !e.Expire?)
    ensures var s' := After(max, s, es);
            |LeasesOf(s', t)| == |LeasesOf(s, t)| + n && s'.ops == s.ops && s.issued <= s'.issued &&
              s'.leases.Keys <= s'.issued
    decreases n
  {
    if n == 0 {
      es := [];
    } else {
      var first, l := AcquireRun(max, s, t);
      var s1 := After(max, s, first);
      OneLeaseMoved(s, s1, l, t);
      var rest := AcquireMany(max, s1, t, n - 1);
      RunsJoin(max, s, first, rest);
      es := first + rest;
    }
  }

  /** From here, without a further expiry and without any loss, the tenant can get more leases than the cap. */
  ghost predicate CanExceed(max: nat, s: State, t: Tenant) {
    exists es :: IsRun(max, s, es) && (forall e :: e in es ==> Clean(e) && !e.Expire?) &&
      |LeasesOf(After(max, s, es), t)| > max
  }

  lemma ExceedBy(max: nat, s: State, t: Tenant, first: seq<Event>, n: nat)
    requires IsRun(max, s, first) && forall e :: e in first ==> Clean(e) && !e.Expire?
    requires var s1 := After(max, s, first);
             s1.leases.Keys <= s1.issued && Counter(s1, t) + n <= max && |LeasesOf(s1, t)| + n > max
    ensures CanExceed(max, s, t)
  {
    var rest := AcquireMany(max, After(max, s, first), t, n);
    RunsJoin(max, s, first, rest);
    assert IsRun(max, s, first + rest);
  }

  /** A lease that outlives its counter: the cap can be filled once more. */
  lemma LeaseAtExpiry(max: nat, s: State, t: Tenant)
    requires Inv(max, s) && LeasesOf(s, t) != {}
    ensures CanExceed(max, Next(max, s, Expire(t)), t)
  {
    var s' := Next(max, s, Expire(t));
    assert LeasesOf(s', t) == LeasesOf(s, t) && IsRun(max, s', []);
    ExceedBy(max, s', t, [], max);
  }

  /** A DECR that meets a fresh counter takes it below zero, which makes room for one lease too many. */
  lemma BelowZeroExceeds(max: nat, s: State, t: Tenant, e: Event)
    requires s.leases.Keys <= s.issued && Enabled(s, e) && Clean(e) && !e.Expire?
    requires Counter(Next(max, s, e), t) == -1 && Next(max, s, e).leases == s.leases &&
             Next(max, s, e).issued == s.issued
    ensures CanExceed(max, s, t)
  {
    RunFrom(max, s, e, []);
    assert [e] + [] == [e];
    ExceedBy(max, s, t, [e], max + 1);
  }

  /** An operation still on its way to a lease gets it after the cap was filled once more. */
  lemma GrantAtExpiry(max: nat, s: State, id: OpId, t: Tenant)
    requires Inv(max, s) && id in s.ops && s.ops[id].tenant == t &&
             (s.ops[id].phase == Granted || s.ops[id].phase == Leasing)
    ensures CanExceed(max, Next(max, s, Expire(t)), t)
  {
    var s' := Next(max, s, Expire(t));
    var l := FreshText(s'.issued);
    var ready := LeaseReady(id, l);
    if s.ops[id].phase == Leasing {
      var s1 := Next(max, s', ready);
      RunFrom(max, s', ready, []);
      assert [ready] + [] == [ready];
      OneLeaseMoved(s', s1, l, t);
      ExceedBy(max, s', t, [ready], max);
    } else {
      var set_ := ExpirySet(id, true);
      var s1 := Next(max, s', set_);
      var s2 := Next(max, s1, ready);
      RunFrom(max, s1, ready, []);
      RunFrom(max, s', set_, [ready] + []);
      OneLeaseMoved(s', s2, l, t);
      ExceedBy(max, s', t, [set_] + ([ready] + []), max);
    }
  }

  /** The other operations of the tenant end in a DECR. */
  lemma ReturnAtExpiry(max: nat, s: State, id: OpId, t: Tenant)
    requires Inv(max, s) && id in s.ops && s.ops[id].tenant == t &&
             (s.ops[id].phase == Returning || s.ops[id].phase == Rejecting)
    ensures CanExceed(max, Next(max, s, Expire(t)), t)
  {
    BelowZeroExceeds(max, Next(max, s, Expire(t)), t,
                     if s.ops[id].phase == Returning then Decr(id, true, true) else Rollback(id, true));
  }

  lemma {:induction false} NoExpiryKeepsInv(max: nat, s: State, es: seq<Event>)
    requires Inv(max, s) && IsRun(max, s, es) && forall e :: e in es ==> !e.Expire?
    ensures Inv(max, After(max, s, es))
    decreases |es|
  {
    if es != [] {
      StepKeepsInv(max, s, es[0]);
      NoExpiryKeepsInv(max, Next(max, s, es[0]), es[1..]);
    }
  }

  /**
   * The counter key of a tenant may expire without harm exactly when the tenant has no lease and no operation in
   * flight: otherwise the cap, whatever it is, can be exceeded without anything else going wrong.
   */
  lemma ExpiryBreaksCapExactly(max: nat, s: State, t: Tenant)
    requires Inv(max, s)
    ensures CanExceed(max, Next(max, s, Expire(t)), t) <==> !Idle(s, t)
  {
    var s' := Next(max, s, Expire(t));
    if Idle(s, t) {
      StepKeepsInv(max, s, Expire(t));
      forall es | IsRun(max, s', es) && forall e :: e in es ==> Clean(e) && !e.Expire?
        ensures |LeasesOf(After(max, s', es), t)| <= max
      {
        NoExpiryKeepsInv(max, s', es);
        assert TenantInv(max, After(max, s', es), t);
      }
    } else if LeasesOf(s, t) != {} {
      LeaseAtExpiry(max, s, t);
    } else {
      var id :| id in Holders(s, t) + Rejections(s, t);
      assert id in Holders(s, t) || id in Rejections(s, t);
      if s.ops[id].phase == Granted || s.ops[id].phase == Leasing { GrantAtExpiry(max, s, id, t); }
      else { ReturnAtExpiry(max, s, id, t); }
    }
  }
}
