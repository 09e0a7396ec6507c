/**
 * Operations on the shared counter that are under way when its key expires (apps/worker-ingest/src/
 * browserManagerServer.js). Between an INCR and its PEXPIRE the key keeps its old deadline, and so it does until a DECR
 * arrives: how far an INCR has to stay away from the deadline, and what the time limits have to be, for an expiry never
 * to meet an operation or a lease.
 */
module LeaseLag {
  import opened Basics
  import Q = LeaseQuota
  import opened LeaseClock

  /** A lease and its DECR fit into the key's life, and an INCR has answered and its PEXPIRE or DECR run in the gap. */
  predicate Roomy(cfg: Config, lim: Limits)
    requires lim.lag.Some?
  {
    Safe(cfg, lim.wait + lim.lag.value) && lim.lag.value < lim.gap
  }

  // ------------------------------------------------------------------ what every run within the limits keeps

  /** An operation waits within its limit, and its key outlives what is left of it. */
  predicate OpTimely(lim: Limits, s: State, id: Q.OpId)
    requires lim.lag.Some? && id in s.q.ops
  {
    var op := s.q.ops[id];
    if op.phase == Q.Leasing then id in s.grantedAt && s.now <= s.grantedAt[id] + lim.wait
    else id in s.since && KeyOutlives(s, op.tenant, s.since[id], lim.lag.value)
  }

  predicate KeyOutlives(s: State, t: Q.Tenant, since: int, lag: int) {
    since <= s.now <= since + lag && (t in s.deadline ==> s.deadline[t] > since + lag)
  }

  ghost predicate LagInv(cfg: Config, lim: Limits, s: State)
    requires lim.lag.Some?
  {
    && Inv(cfg, lim.wait, s) && Q.Inv(cfg.max, s.q)
    && forall id :: id in s.q.ops ==> OpTimely(lim, s, id)
  }

  /** So a key that may expire counts nothing. */
  lemma ExpiryIsIdle(cfg: Config, lim: Limits, s: State, t: Q.Tenant)
    requires lim.lag.Some? && lim.lag.value >= 0 && Roomy(cfg, lim) && cfg.ttl >= 1
    requires LagInv(cfg, lim, s) && Enabled(cfg, s, Do(Q.Expire(t), false))
    ensures Q.Idle(s.q, t)
  {
    SafeIsTimely(cfg, lim.wait, s, t);
    forall id | id in s.q.ops ensures s.q.ops[id].tenant != t {
      assert OpTimely(lim, s, id) && OpTrue(cfg, s, id);
    }
  }

  /** A whole key life from now, or the deadline it had. */
  predicate DeadlineMoved(cfg: Config, s: State, t: State, tenant: Q.Tenant) {
    tenant in t.deadline ==>
      t.deadline[tenant] == s.now + KeyLife(cfg.ttl) ||
        (tenant in s.deadline && t.deadline[tenant] == s.deadline[tenant])
  }

  lemma ClockedDeadlines(cfg: Config, s: State, e: Q.Event, touched: bool, q': Q.State, tenant: Q.Tenant)
    requires Q.Enabled(s.q, e)
    ensures DeadlineMoved(cfg, s, Clocked(cfg, s, e, touched, q'), tenant) &&
            Clocked(cfg, s, e, touched, q').now == s.now
  {
  }

  lemma DeadlinesMove(cfg: Config, s: State, e: Event, tenant: Q.Tenant)
    requires Enabled(cfg, s, e) && !e.Advance?
    ensures DeadlineMoved(cfg, s, Next(cfg, s, e), tenant) && Next(cfg, s, e).now == s.now
  {
    match e
    case Do(qe, touched) =>
      DoSteps(cfg, s, qe, touched);
      ClockedDeadlines(cfg, s, qe, touched, Q.Next(cfg.max, s.q, qe), tenant);
    case _ =>
  }

  /** A step that takes no time: a key either keeps its deadline or lives a whole life from now. */
  lemma StillOutlives(cfg: Config, s: State, e: Event, t: Q.Tenant, since: int, lag: int)
    requires Enabled(cfg, s, e) && !e.Advance? && KeyOutlives(s, t, since, lag) && lag < KeyLife(cfg.ttl)
    ensures KeyOutlives(Next(cfg, s, e), t, since, lag)
  {
    DeadlinesMove(cfg, s, e, t);
  }

  /** The operation a command works for; crashes and expiries have none. */
  predicate Concerns(e: Q.Event, id: Q.OpId) { !e.Crash? && !e.Expire? && e.id == id }

  lemma OthersStay(cfg: Config, s: State, e: Q.Event, touched: bool, id: Q.OpId)
    requires Enabled(cfg, s, Do(e, touched)) && !Concerns(e, id) && id in Next(cfg, s, Do(e, touched)).q.ops
    ensures var t := Next(cfg, s, Do(e, touched));
            && id in s.q.ops && t.q.ops[id] == s.q.ops[id] && t.now == s.now
            && (id in s.since ==> id in t.since && t.since[id] == s.since[id])
            && (id in s.grantedAt ==> id in t.grantedAt && t.grantedAt[id] == s.grantedAt[id])
  {
  }

  lemma OthersTimely(cfg: Config, lim: Limits, s: State, e: Q.Event, touched: bool, id: Q.OpId)
    requires lim.lag.Some? && lim.lag.value < KeyLife(cfg.ttl) && Enabled(cfg, s, Do(e, touched)) && !Concerns(e, id)
    requires id in Next(cfg, s, Do(e, touched)).q.ops && forall i :: i in s.q.ops ==> OpTimely(lim, s, i)
    ensures OpTimely(lim, Next(cfg, s, Do(e, touched)), id)
  {
    OthersStay(cfg, s, e, touched, id);
    assert OpTimely(lim, s, id);
    if s.q.ops[id].phase != Q.Leasing {
      StillOutlives(cfg, s, Do(e, touched), s.q.ops[id].tenant, s.since[id], lim.lag.value);
    }
  }

  lemma IncrTimely(cfg: Config, lim: Limits, s: State, e: Q.Event, touched: bool)
    requires lim.lag.Some? && 0 <= lim.lag.value < lim.gap && e.Incr?
    requires Enabled(cfg, s, Do(e, touched)) && Within(lim, s, Do(e, touched))
    requires e.id in Next(cfg, s, Do(e, touched)).q.ops
    ensures OpTimely(lim, Next(cfg, s, Do(e, touched)), e.id)
  {
  }

  lemma GrantTimely(cfg: Config, lim: Limits, s: State, e: Q.Event, touched: bool)
    requires lim.lag.Some? && lim.wait >= 0 && e.ExpirySet? && Enabled(cfg, s, Do(e, touched))
    requires e.id in Next(cfg, s, Do(e, touched)).q.ops
    ensures OpTimely(lim, Next(cfg, s, Do(e, touched)), e.id)
  {
  }

  /** A browser that could not be leased: what is left of the key's life is enough for the DECR. */
  lemma FailureTimely(cfg: Config, lim: Limits, s: State, e: Q.Event, touched: bool)
    requires lim.lag.Some? && lim.lag.value >= 0 && cfg.ttl >= 1 && Safe(cfg, lim.wait + lim.lag.value)
    requires e.LeaseFailed? && Enabled(cfg, s, Do(e, touched)) && e.id in s.q.ops
    requires OpTimely(lim, s, e.id) && OpTrue(cfg, s, e.id)
    ensures OpTimely(lim, Next(cfg, s, Do(e, touched)), e.id)
  {
  }

  /** So it is when a lease is given back, at the latest by the collection after its deadline. */
  lemma ReleaseTimely(cfg: Config, lim: Limits, s: State, e: Q.Event, touched: bool)
    requires lim.lag.Some? && lim.lag.value >= 0 && Safe(cfg, lim.wait + lim.lag.value) && Inv(cfg, lim.wait, s)
    requires e.Release? && Enabled(cfg, s, Do(e, touched)) && Q.LeasedBy(s.q, e.replica, e.lease)
    ensures e.id in Next(cfg, s, Do(e, touched)).q.ops && OpTimely(lim, Next(cfg, s, Do(e, touched)), e.id)
  {
    assert LeaseTrue(cfg, lim.wait, s, e.lease) && TickTrue(cfg, s, e.replica);
  }

  lemma CommandTimely(cfg: Config, lim: Limits, s: State, e: Q.Event, touched: bool, id: Q.OpId)
    requires lim.lag.Some? && lim.lag.value >= 0 && lim.wait >= 0 && cfg.ttl >= 1 && Roomy(cfg, lim) &&
             LagInv(cfg, lim, s)
    requires Enabled(cfg, s, Do(e, touched)) && Within(lim, s, Do(e, touched))
    requires Q.Inv(cfg.max, Q.Next(cfg.max, s.q, e)) && id in Next(cfg, s, Do(e, touched)).q.ops
    ensures OpTimely(lim, Next(cfg, s, Do(e, touched)), id)
  {
    if !Concerns(e, id) {
      OthersTimely(cfg, lim, s, e, touched, id);
    } else if e.Incr? {
      IncrTimely(cfg, lim, s, e, touched);
    } else if e.ExpirySet? {
      GrantTimely(cfg, lim, s, e, touched);
    } else if e.LeaseFailed? {
      FailureTimely(cfg, lim, s, e, touched);
    } else if e.Release? {
      ReleaseTimely(cfg, lim, s, e, touched);
    }
  }

  lemma ClockTimely(cfg: Config, lim: Limits, s: State, e: Event)
    requires lim.lag.Some? && !e.Do? && Enabled(cfg, s, e) && Within(lim, s, e)
    requires forall i :: i in s.q.ops ==> OpTimely(lim, s, i)
    ensures forall i :: i in Next(cfg, s, e).q.ops ==> OpTimely(lim, Next(cfg, s, e), i)
  {
    forall i | i in Next(cfg, s, e).q.ops ensures OpTimely(lim, Next(cfg, s, e), i) {
      assert OpTimely(lim, s, i);
      if e.Advance? { assert MayWait(lim, s, i, e.to); }
    }
  }

  lemma StepKeepsLagInv(cfg: Config, lim: Limits, s: State, e: Event)
    requires lim.lag.Some? && lim.lag.value >= 0 && lim.wait >= 0 && cfg.ttl >= 1 && Roomy(cfg, lim)
    requires LagInv(cfg, lim, s) && Enabled(cfg, s, e) && Within(lim, s, e)
    ensures LagInv(cfg, lim, Next(cfg, s, e))
  {
    StepKeepsInv(cfg, lim.wait, s, e);
    match e
    case Do(qe, touched) =>
      DoSteps(cfg, s, qe, touched);
      if qe.Expire? { ExpiryIsIdle(cfg, lim, s, qe.tenant); }
      Q.StepKeepsInv(cfg.max, s.q, qe);
      forall id | id in Next(cfg, s, e).q.ops ensures OpTimely(lim, Next(cfg, s, e), id) {
        CommandTimely(cfg, lim, s, qe, touched, id);
      }
    case _ => ClockTimely(cfg, lim, s, e);
  }

  /** The cap holds in every run within limits that leave room: nothing is assumed about the expiries in it. */
  lemma {:induction false} CapHoldsOverTime(cfg: Config, lim: Limits, s: State, es: seq<Event>)
    requires lim.lag.Some? && lim.lag.value >= 0 && lim.wait >= 0 && cfg.ttl >= 1 && Roomy(cfg, lim)
    requires LagInv(cfg, lim, s) && IsRun(cfg, s, es) && InTime(cfg, lim, s, es)
    ensures LagInv(cfg, lim, After(cfg, s, es)) && Q.Inv(cfg.max, After(cfg, s, es).q)
    decreases |es|
  {
    if es != [] {
      StepKeepsLagInv(cfg, lim, s, es[0]);
      CapHoldsOverTime(cfg, lim, Next(cfg, s, es[0]), es[1..]);
    }
  }

  lemma StartLagInv(cfg: Config, lim: Limits)
    requires lim.lag.Some?
    ensures LagInv(cfg, lim, Start())
  {
    forall t ensures Q.TenantInv(cfg.max, Q.INITIAL, t) {
      assert Q.Holders(Q.INITIAL, t) == {} && Q.LeasesOf(Q.INITIAL, t) == {} && Q.Rejections(Q.INITIAL, t) == {};
    }
  }

  // ------------------------------------------------------------------ and without room it does not

  /** A lease has just been given back, and its DECR is under way. */
  function GivingBack(cfg: Config, at: int, ready: int, since: int, now: int, n: int): State {
    State(Q.State(map["t" := 1], map[1 := Q.Op(0, "t", Q.Returning)], map[], {"l"}), now,
          map["t" := at + KeyLife(cfg.ttl)], map[0 := n], map[0 := at], map["l" := at], map["l" := ready + cfg.ttl],
          map[0 := at, 1 := since])
  }

  /** It has been given back: the counter is zero and its key still has its deadline. */
  function Spent(cfg: Config, now: int, n: int): State {
    GivingBack(cfg, 0, 0, 0, now, n).(q := Q.State(map["t" := 0], map[], map[], {"l"}))
  }

  /** A new acquire between its INCR and its PEXPIRE, on the old key. */
  function Counted(cfg: Config, since: int, now: int, n: int): State {
    Spent(cfg, now, n).(q := Q.State(map["t" := 1], map[2 := Q.Op(0, "t", Q.Granted)], map[], {"l"}),
                        since := map[0 := 0, 1 := 0, 2 := since])
  }

  lemma GivesBack(cfg: Config, lim: Limits, at: int, ready: int, now: int, n: int)
    ensures Reaches(cfg, lim, Leased(cfg, at, ready, now, n), GivingBack(cfg, at, ready, now, now, n))
  {
    var s, e, t := Leased(cfg, at, ready, now, n), Do(Q.Release(1, 0, "l"), false),
      GivingBack(cfg, at, ready, now, now, n);
    assert Next(cfg, s, e) == t;
    ReachesSelf(cfg, lim, t);
    StepReaches(cfg, lim, s, e, t);
  }

  /** With no lease alive a timer that fires never holds the clock up. */
  lemma TimeRuns(cfg: Config, lim: Limits, s: State, n: int, x: int) returns (n': int)
    requires s.nextTick == map[0 := n] && s.now <= x && 0 <= s.now <= n && s.q.leases == map[]
    requires forall id :: id in s.q.ops ==> MayWait(lim, s, id, x)
    ensures x <= n' && Reaches(cfg, lim, s, s.(now := x, nextTick := map[0 := n']))
  {
    var every := CollectEvery(cfg.ttl);
    Enough(x, every);
    var k;
    n', k := ClockRuns(cfg, lim, s, n, x, n + x * every, x);
  }

  lemma Enough(x: int, every: int)
    requires x >= 0 && every >= 1
    ensures x <= x * every
  {
  }

  /** A state in which a key may expire although something is counted under it. */
  ghost predicate Meets(cfg: Config, s: State, t: Q.Tenant) {
    Enabled(cfg, s, Do(Q.Expire(t), false)) && !Q.Idle(s.q, t)
  }

  ghost predicate CountedCanMeetExpiry(cfg: Config, lim: Limits) {
    exists s, t :: Reaches(cfg, lim, Start(), s) && Meets(cfg, s, t)
  }

  lemma GivenBackAt(cfg: Config, lim: Limits, k: int, at: int, w: int, back: int) returns (n: int)
    requires cfg.max >= 1 && k >= -1 && 0 <= at && 0 <= w <= lim.wait && at + w <= back
    requires var every := CollectEvery(cfg.ttl);
             every + k * every < at + w + cfg.ttl && back <= every + k * every + every
    ensures back <= n && Reaches(cfg, lim, Start(), GivingBack(cfg, at, at + w, back, back, n))
  {
    var k';
    n, k' := LeaseLives(cfg, lim, k, at, w, back);
    GivesBack(cfg, lim, at, at + w, back, n);
    Onward(cfg, lim, Start(), Leased(cfg, at, at + w, back, n), GivingBack(cfg, at, at + w, back, back, n));
  }

  lemma ReturnRuns(cfg: Config, lim: Limits, at: int, ready: int, back: int, n: int, x: int) returns (n': int)
    requires 0 <= back <= n && back <= x && lim.lag.Some? && x <= back + lim.lag.value
    ensures Reaches(cfg, lim, GivingBack(cfg, at, ready, back, back, n), GivingBack(cfg, at, ready, back, x, n'))
  {
    n' := TimeRuns(cfg, lim, GivingBack(cfg, at, ready, back, back, n), n, x);
  }

  lemma ReturnMeets(cfg: Config, at: int, ready: int, back: int, now: int, n: int)
    requires now >= at + KeyLife(cfg.ttl)
    ensures Meets(cfg, GivingBack(cfg, at, ready, back, now, n), "t")
  {
    assert 1 in Q.Holders(GivingBack(cfg, at, ready, back, now, n).q, "t");
  }

  /** A lease given back by its collection, at the latest moment, with a DECR that takes its time. */
  lemma LateReturnMeets(cfg: Config, lim: Limits)
    requires cfg.ttl >= 1 && cfg.max >= 1 && lim.wait >= 0 && lim.lag.Some? && lim.lag.value >= 0
    requires Safe(cfg, lim.wait) && !Safe(cfg, lim.wait + lim.lag.value)
    ensures CountedCanMeetExpiry(cfg, lim)
  {
    var every, life := CollectEvery(cfg.ttl), KeyLife(cfg.ttl);
    var at, k := JustMissed(lim.wait + cfg.ttl - 1, every);
    var ready, back := at + lim.wait, every + k * every + every;
    var n := GivenBackAt(cfg, lim, k, at, lim.wait, back);
    var n' := ReturnRuns(cfg, lim, at, ready, back, n, at + life);
    var last := GivingBack(cfg, at, ready, back, at + life, n');
    Onward(cfg, lim, Start(), GivingBack(cfg, at, ready, back, back, n), last);
    ReturnMeets(cfg, at, ready, back, at + life, n');
  }

  lemma SpentReached(cfg: Config, lim: Limits, n: int)
    ensures Reaches(cfg, lim, GivingBack(cfg, 0, 0, 0, 0, n), Spent(cfg, 0, n))
  {
    var s, e := GivingBack(cfg, 0, 0, 0, 0, n), Do(Q.Decr(1, true, true), false);
    assert Next(cfg, s, e).q == Spent(cfg, 0, n).q;
    ReachesSelf(cfg, lim, Spent(cfg, 0, n));
    StepReaches(cfg, lim, s, e, Spent(cfg, 0, n));
  }

  lemma CountedReached(cfg: Config, lim: Limits, now: int, n: int)
    requires cfg.max >= 1 && now + lim.gap <= KeyLife(cfg.ttl)
    ensures Reaches(cfg, lim, Spent(cfg, now, n), Counted(cfg, now, now, n))
  {
    var s, e := Spent(cfg, now, n), Do(Q.Incr(2, 0, "t", true), false);
    assert Next(cfg, s, e).q == Counted(cfg, now, now, n).q;
    assert Next(cfg, s, e).since == map[0 := 0, 1 := 0, 2 := now];
    ReachesSelf(cfg, lim, Counted(cfg, now, now, n));
    StepReaches(cfg, lim, s, e, Counted(cfg, now, now, n));
  }

  /** Grant, lease and release at once, so that only the key is left. */
  lemma KeyLeft(cfg: Config, lim: Limits) returns (n: int)
    requires cfg.ttl >= 1 && cfg.max >= 1 && lim.wait >= 0
    ensures n >= 0 && Reaches(cfg, lim, Start(), Spent(cfg, 0, n))
  {
    var k;
    n, k := LeaseLives(cfg, lim, -1, 0, 0, 0);
    GivesBack(cfg, lim, 0, 0, 0, n);
    Onward(cfg, lim, Start(), Leased(cfg, 0, 0, 0, n), GivingBack(cfg, 0, 0, 0, 0, n));
    SpentReached(cfg, lim, n);
    Onward(cfg, lim, Start(), GivingBack(cfg, 0, 0, 0, 0, n), Spent(cfg, 0, n));
  }

  lemma SpentRuns(cfg: Config, lim: Limits, n: int, x: int) returns (n': int)
    requires n >= 0 && x >= 0
    ensures x <= n' && Reaches(cfg, lim, Spent(cfg, 0, n), Spent(cfg, x, n'))
  {
    n' := TimeRuns(cfg, lim, Spent(cfg, 0, n), n, x);
  }

  lemma CountedRuns(cfg: Config, lim: Limits, at: int, n: int, x: int) returns (n': int)
    requires 0 <= at <= n && at <= x && lim.lag.Some? && x <= at + lim.lag.value
    ensures Reaches(cfg, lim, Counted(cfg, at, at, n), Counted(cfg, at, x, n'))
  {
    n' := TimeRuns(cfg, lim, Counted(cfg, at, at, n), n, x);
  }

  lemma SpentAt(cfg: Config, lim: Limits, x: int) returns (n: int)
    requires cfg.ttl >= 1 && cfg.max >= 1 && lim.wait >= 0 && x >= 0
    ensures x <= n && Reaches(cfg, lim, Start(), Spent(cfg, x, n))
  {
    var first := KeyLeft(cfg, lim);
    n := SpentRuns(cfg, lim, first, x);
    Onward(cfg, lim, Start(), Spent(cfg, 0, first), Spent(cfg, x, n));
  }

  lemma CountedAt(cfg: Config, lim: Limits, at: int, x: int) returns (n: int)
    requires cfg.ttl >= 1 && cfg.max >= 1 && lim.wait >= 0 && 0 <= at <= x && at + lim.gap <= KeyLife(cfg.ttl)
    requires lim.lag.Some? && x <= at + lim.lag.value
    ensures Reaches(cfg, lim, Start(), Counted(cfg, at, x, n))
  {
    var first := SpentAt(cfg, lim, at);
    CountedReached(cfg, lim, at, first);
    Onward(cfg, lim, Start(), Spent(cfg, at, first), Counted(cfg, at, at, first));
    n := CountedRuns(cfg, lim, at, first, x);
    Onward(cfg, lim, Start(), Counted(cfg, at, at, first), Counted(cfg, at, x, n));
  }

  lemma CountedMeets(cfg: Config, since: int, now: int, n: int)
    requires now >= KeyLife(cfg.ttl)
    ensures Meets(cfg, Counted(cfg, since, now, n), "t")
  {
    assert 2 in Q.Holders(Counted(cfg, since, now, n).q, "t");
  }

  /** An INCR that comes too close to the old deadline is overtaken by it. */
  lemma LateIncrMeets(cfg: Config, lim: Limits) returns (s: State)
    requires cfg.ttl >= 1 && cfg.max >= 1 && lim.wait >= 0
    requires lim.lag.Some? && 0 <= lim.gap <= lim.lag.value && lim.gap <= KeyLife(cfg.ttl)
    ensures Reaches(cfg, lim, Start(), s) && Meets(cfg, s, "t") && s.q == Counted(cfg, 0, 0, 0).q
  {
    var life := KeyLife(cfg.ttl);
    var n := CountedAt(cfg, lim, life - lim.gap, life);
    s := Counted(cfg, life - lim.gap, life, n);
    CountedMeets(cfg, life - lim.gap, life, n);
  }

  /**
   * Over all runs in which browsers come within `wait`, Redis answers within `lag` and an INCR keeps `gap` away from
   * its key's deadline: no expiry ever meets a lease or an operation of its tenant, exactly when wait, lag, lease time
   * and collection interval together fit into the key's life and the gap exceeds the lag.
   */
  lemma CountedOutlivedExactly(cfg: Config, lim: Limits)
    requires cfg.ttl >= 1 && cfg.max >= 1 && lim.wait >= 0 && lim.lag.Some? && lim.lag.value >= 0 && lim.gap >= 0
    ensures !CountedCanMeetExpiry(cfg, lim) <==> Roomy(cfg, lim)
  {
    if Roomy(cfg, lim) {
      forall s, t | Reaches(cfg, lim, Start(), s) ensures !Meets(cfg, s, t) {
        var es :| IsRun(cfg, Start(), es) && InTime(cfg, lim, Start(), es) && After(cfg, Start(), es) == s;
        StartLagInv(cfg, lim);
        CapHoldsOverTime(cfg, lim, Start(), es);
        if Enabled(cfg, s, Do(Q.Expire(t), false)) { ExpiryIsIdle(cfg, lim, s, t); }
      }
    } else if !Safe(cfg, lim.wait) {
      LeaseMeets(cfg, lim);
    } else if !Safe(cfg, lim.wait + lim.lag.value) {
      LateReturnMeets(cfg, lim);
    } else {
      var s := LateIncrMeets(cfg, lim);
    }
  }

  lemma LeaseMeets(cfg: Config, lim: Limits)
    requires cfg.ttl >= 1 && cfg.max >= 1 && lim.wait >= 0 && !Safe(cfg, lim.wait)
    ensures CountedCanMeetExpiry(cfg, lim)
  {
    UnsafeMeetsExpiry(cfg, lim);
    var s, t :| Reaches(cfg, lim, Start(), s) && Enabled(cfg, s, Do(Q.Expire(t), false)) && Q.LeasesOf(s.q, t) != {};
    assert Meets(cfg, s, t);
  }

  /**
   * The server looks at no deadline before its INCR. So no setting is safe, however fast browsers and Redis answer: an
   * INCR at the deadline is counted, its key goes before its PEXPIRE, and then the cap can be exceeded.
   */
  lemma NoSettingIsSafe(cfg: Config) returns (s: State)
    requires cfg.ttl >= 1 && cfg.max >= 1
    ensures Reaches(cfg, Limits(0, Some(0), 0), Start(), s) && Enabled(cfg, s, Do(Q.Expire("t"), false))
    ensures Q.CanExceed(cfg.max, Q.Next(cfg.max, s.q, Q.Expire("t")), "t")
  {
    s := LateIncrMeets(cfg, Limits(0, Some(0), 0));
    forall t ensures Q.TenantInv(cfg.max, s.q, t) {
      assert Q.Holders(s.q, t) == (if t == "t" then {2} else {}) && Q.LeasesOf(s.q, t) == {} &&
             Q.Rejections(s.q, t) == {};
    }
    Q.ExpiryBreaksCapExactly(cfg.max, s.q, "t");
  }
}
