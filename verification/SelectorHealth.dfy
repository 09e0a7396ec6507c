/** Degraded-portal alerts (apps/worker-ingest/src/lib/selectorHealthMonitor.js). */
module SelectorHealth {
  import opened Basics

  type Portal = string

  datatype Config = Config(threshold: int, windowMs: int, cooldownMs: int)

  /** The constructor's defaults and clamps; None and zero stand for values Number() cannot use. */
  function MakeConfig(threshold: Option<int>, windowMs: Option<int>, cooldownMs: Option<int>): (c: Config)
    ensures c.threshold >= 1 && c.windowMs >= 1000 && c.cooldownMs >= 1000
    ensures threshold.Some? && threshold.value >= 1 ==> c.threshold == threshold.value
    ensures windowMs.Some? && windowMs.value >= 1000 ==> c.windowMs == windowMs.value
    ensures cooldownMs.Some? && cooldownMs.value >= 1000 ==> c.cooldownMs == cooldownMs.value
    ensures threshold in {None, Some(0)} ==> c.threshold == 5
    ensures windowMs in {None, Some(0)} ==> c.windowMs == 600000
    ensures cooldownMs in {None, Some(0)} ==> c.cooldownMs == 300000
  {
    Config(Max(1, OrDefault(threshold, 5)), Max(1000, OrDefault(windowMs, 600000)),
           Max(1000, OrDefault(cooldownMs, 300000)))
  }

  function OrDefault(n: Option<int>, d: int): int { if n.None? || n.value == 0 then d else n.value }

  ghost predicate Clamped(c: Config) { c.threshold >= 1 && c.windowMs >= 1000 && c.cooldownMs >= 1000 }

  // ------------------------------------------------------------------ the pruned form

  datatype Monitor = Monitor(recent: map<Portal, seq<int>>, lastAlert: map<Portal, int>)

  datatype Verdict = Verdict(shouldAlert: bool, failuresInWindow: nat)

  const FRESH := Monitor(map[], map[])

  function NotBefore(ts: seq<int>, floor: int): seq<int> {
    if ts == [] then []
    else
      var rest := NotBefore(ts[..|ts| - 1], floor);
      if ts[|ts| - 1] >= floor then rest + [ts[|ts| - 1]] else rest
  }

  function Recent(m: Monitor, p: Portal): seq<int> { if p in m.recent then m.recent[p] else [] }

  function LastAlert(m: Monitor, p: Portal): int { if p in m.lastAlert then m.lastAlert[p] else 0 }

  function Judge(c: Config, m: Monitor, p: Portal, now: int): Verdict {
    var n := |NotBefore(Recent(m, p) + [now], now - c.windowMs)|;
    Verdict(n >= c.threshold && now - LastAlert(m, p) >= c.cooldownMs, n)
  }

  function Record(c: Config, m: Monitor, p: Portal, now: int): Monitor {
    Monitor(m.recent[p := NotBefore(Recent(m, p) + [now], now - c.windowMs)],
            if Judge(c, m, p, now).shouldAlert then m.lastAlert[p := now] else m.lastAlert)
  }

  // ------------------------------------------------------------------ the full history

  datatype Failure = Failure(portal: Portal, at: int)

  function Replay(c: Config, log: seq<Failure>): Monitor {
    if log == [] then FRESH
    else var e := log[|log| - 1]; Record(c, Replay(c, log[..|log| - 1]), e.portal, e.at)
  }

  /** All failure times of a portal, in order of arrival. */
  function Times(log: seq<Failure>, p: Portal): seq<int> {
    if log == [] then []
    else
      var e := log[|log| - 1];
      Times(log[..|log| - 1], p) + if e.portal == p then [e.at] else []
  }

  /** The times at which the monitor raised an alert for a portal. */
  function Alerts(c: Config, log: seq<Failure>, p: Portal): seq<int> {
    if log == [] then []
    else
      var e, before := log[|log| - 1], log[..|log| - 1];
      Alerts(c, before, p) + if e.portal == p && Judge(c, Replay(c, before), p, e.at).shouldAlert then [e.at] else []
  }

  ghost predicate ClockNonDecreasing(ts: seq<int>) {
    forall i, j :: 0 <= i < j < |ts| ==> ts[i] <= ts[j]
  }

  /** How many of the times lie in [from, to]. */
  function CountBetween(ts: seq<int>, from: int, to: int): nat {
    if ts == [] then 0
    else CountBetween(ts[..|ts| - 1], from, to) + if from <= ts[|ts| - 1] <= to then 1 else 0
  }

  lemma PruneSnoc(ts: seq<int>, t: int, f: int)
    ensures NotBefore(ts + [t], f) == NotBefore(ts, f) + if t >= f then [t] else []
  {
    assert (ts + [t])[..|ts + [t]| - 1] == ts;
  }

  // ------------------------------------------------------------------ what is kept, whatever the clock does

  /** The pruning of recordFailure, applied at every failure of one portal. */
  function Kept(ts: seq<int>, w: int): seq<int> {
    if ts == [] then []
    else
      var last := ts[|ts| - 1];
      NotBefore(Kept(ts[..|ts| - 1], w) + [last], last - w)
  }

  /** No failure from this one on came later than the window allows. */
  ghost predicate Survives(ts: seq<int>, i: nat, w: int)
    requires i < |ts|
  {
    forall j :: i <= j < |ts| ==> ts[i] >= ts[j] - w
  }

  /** Those of the first k failures that survive the whole history. */
  ghost function Survivors(ts: seq<int>, k: nat, w: int): seq<int>
    requires k <= |ts|
  {
    if k == 0 then [] else Survivors(ts, k - 1, w) + if Survives(ts, k - 1, w) then [ts[k - 1]] else []
  }

  /** How many of the first k failures lie in the window that ends now, but did not survive. */
  ghost function Missing(ts: seq<int>, k: nat, w: int, now: int): nat
    requires k <= |ts|
  {
    if k == 0 then 0
    else Missing(ts, k - 1, w, now) + if now - w <= ts[k - 1] <= now && !Survives(ts, k - 1, w) then 1 else 0
  }

  /** How many of the first k failures survived and lie ahead of now. */
  ghost function Ahead(ts: seq<int>, k: nat, w: int, now: int): nat
    requires k <= |ts|
  {
    if k == 0 then 0 else Ahead(ts, k - 1, w, now) + if Survives(ts, k - 1, w) && ts[k - 1] > now then 1 else 0
  }

  lemma SurvivesSnoc(ts: seq<int>, t: int, i: nat, w: int)
    requires i < |ts|
    ensures Survives(ts + [t], i, w) <==> Survives(ts, i, w) && ts[i] >= t - w
  {
    var more := ts + [t];
    if Survives(more, i, w) {
      forall j | i <= j < |ts| ensures ts[i] >= ts[j] - w { assert more[j] == ts[j]; }
      assert more[i] >= more[|ts|] - w;
    }
  }

  lemma SurvivorsStep(ts: seq<int>, k: nat, w: int, kept: bool, before: seq<int>)
    requires k < |ts| && kept == Survives(ts, k, w) && before == Survivors(ts, k, w)
    ensures Survivors(ts, k + 1, w) == if kept then before + [ts[k]] else before
  {
  }

  lemma {:induction false} SurvivorsSnoc(ts: seq<int>, t: int, k: nat, w: int)
    requires k <= |ts|
    ensures Survivors(ts + [t], k, w) == NotBefore(Survivors(ts, k, w), t - w)
  {
    if k > 0 {
      SurvivorsSnoc(ts, t, k - 1, w);
      OneMoreSurvivor(ts, t, k - 1, w, Survivors(ts, k - 1, w), Survivors(ts + [t], k - 1, w));
    }
  }

  lemma OneMoreSurvivor(ts: seq<int>, t: int, k: nat, w: int, before: seq<int>, after: seq<int>)
    requires k < |ts| && before == Survivors(ts, k, w) && after == Survivors(ts + [t], k, w) &&
             after == NotBefore(before, t - w)
    ensures Survivors(ts + [t], k + 1, w) == NotBefore(Survivors(ts, k + 1, w), t - w)
  {
    var kept, keptMore := Survives(ts, k, w), Survives(ts + [t], k, w);
    SurvivesSnoc(ts, t, k, w);
    SurvivorsStep(ts, k, w, kept, before);
    SurvivorsStep(ts + [t], k, w, keptMore, after);
    PruneIf(before, after, kept, ts[k], t - w);
  }

  lemma PruneIf(a: seq<int>, b: seq<int>, kept: bool, x: int, floor: int)
    requires b == NotBefore(a, floor)
    ensures (if kept && x >= floor then b + [x] else b) == NotBefore(if kept then a + [x] else a, floor)
  {
    PruneSnoc(a, x, floor);
  }

  /** The newest failure always survives. */
  lemma SurvivorsOfSnoc(init: seq<int>, last: int, w: int)
    requires w >= 0
    ensures Survivors(init + [last], |init| + 1, w) == NotBefore(Survivors(init, |init|, w), last - w) + [last]
  {
    SurvivorsSnoc(init, last, |init|, w);
    SurvivorsStep(init + [last], |init|, w, true, Survivors(init + [last], |init|, w));
  }

  lemma KeptSnoc(recent: seq<int>, ts: seq<int>, at: int, w: int)
    requires recent == Kept(ts, w)
    ensures NotBefore(recent + [at], at - w) == Kept(ts + [at], w)
  {
    assert (ts + [at])[..|ts + [at]| - 1] == ts;
  }

  ghost predicate KeptSurvive(ts: seq<int>, w: int) { Kept(ts, w) == Survivors(ts, |ts|, w) }

  lemma OneMoreKept(init: seq<int>, last: int, w: int)
    requires w >= 0 && KeptSurvive(init, w)
    ensures KeptSurvive(init + [last], w)
  {
    KeptSnoc(Kept(init, w), init, last, w);
    PruneSnoc(Kept(init, w), last, last - w);
    SurvivorsOfSnoc(init, last, w);
  }

  lemma {:induction false} KeptAreSurvivors(ts: seq<int>, w: int)
    requires w >= 0
    ensures KeptSurvive(ts, w)
  {
    if ts != [] {
      KeptAreSurvivors(ts[..|ts| - 1], w);
      OneMoreKept(ts[..|ts| - 1], ts[|ts| - 1], w);
      assert ts[..|ts| - 1] + [ts[|ts| - 1]] == ts;
    }
  }

  lemma CountSnoc(ts: seq<int>, t: int, from: int, to: int)
    ensures CountBetween(ts + [t], from, to) == CountBetween(ts, from, to) + if from <= t <= to then 1 else 0
  {
    assert (ts + [t])[..|ts + [t]| - 1] == ts;
  }

  /** Survivors are in the window or ahead of now; whatever else is in the window is missing. */
  lemma {:induction false} CountedAndMissing(ts: seq<int>, k: nat, w: int, now: int)
    requires k <= |ts| && ts != [] && ts[|ts| - 1] == now
    ensures |Survivors(ts, k, w)| + Missing(ts, k, w, now) == CountBetween(ts[..k], now - w, now) + Ahead(ts, k, w, now)
  {
    if k > 0 {
      CountedAndMissing(ts, k - 1, w, now);
      assert ts[..k] == ts[..k - 1] + [ts[k - 1]];
      CountSnoc(ts[..k - 1], ts[k - 1], now - w, now);
      assert Survives(ts, k - 1, w) ==> ts[k - 1] >= ts[|ts| - 1] - w;
    }
  }

  lemma {:induction false} NothingMissing(ts: seq<int>, k: nat, w: int, now: int)
    requires k <= |ts| && ts != [] && ts[|ts| - 1] == now && ClockNonDecreasing(ts)
    ensures Missing(ts, k, w, now) == 0 && Ahead(ts, k, w, now) == 0
  {
    if k > 0 {
      NothingMissing(ts, k - 1, w, now);
      assert forall j :: 0 <= j < |ts| ==> ts[j] <= now;
    }
  }

  // ------------------------------------------------------------------ what the monitor reports

  lemma RecordedTimes(c: Config, m: Monitor, q: Portal, now: int, p: Portal)
    ensures Recent(Record(c, m, q, now), p) ==
            if p == q then NotBefore(Recent(m, p) + [now], now - c.windowMs) else Recent(m, p)
  {
  }

  lemma ReplaySnoc(c: Config, log: seq<Failure>, e: Failure)
    ensures Replay(c, log + [e]) == Record(c, Replay(c, log), e.portal, e.at)
    ensures Times(log + [e], e.portal) == Times(log, e.portal) + [e.at]
  {
    assert (log + [e])[..|log + [e]| - 1] == log;
  }

  lemma RecordKeeps(c: Config, m: Monitor, e: Failure, p: Portal, ts: seq<int>)
    requires Recent(m, p) == Kept(ts, c.windowMs)
    ensures Recent(Record(c, m, e.portal, e.at), p) == Kept(ts + if e.portal == p then [e.at] else [], c.windowMs)
  {
    RecordedTimes(c, m, e.portal, e.at, p);
    if e.portal == p { KeptSnoc(Recent(m, p), ts, e.at, c.windowMs); } else { assert ts + [] == ts; }
  }

  /** What the monitor keeps of a portal is its whole history, pruned at every failure. */
  lemma {:induction false} MonitorKeeps(c: Config, log: seq<Failure>, p: Portal)
    ensures Recent(Replay(c, log), p) == Kept(Times(log, p), c.windowMs)
  {
    if log != [] {
      var e, before := log[|log| - 1], log[..|log| - 1];
      MonitorKeeps(c, before, p);
      RecordKeeps(c, Replay(c, before), e, p, Times(before, p));
    }
  }

  /** So a failure is kept exactly when no failure from it on came later than the window allows: for every clock. */
  lemma KeepsExactlySurvivors(c: Config, log: seq<Failure>, p: Portal)
    requires Clamped(c)
    ensures Recent(Replay(c, log), p) == Survivors(Times(log, p), |Times(log, p)|, c.windowMs)
  {
    MonitorKeeps(c, log, p);
    KeptAreSurvivors(Times(log, p), c.windowMs);
  }

  lemma JudgedLength(c: Config, m: Monitor, p: Portal, now: int, kept: seq<int>)
    requires Recent(Record(c, m, p, now), p) == kept
    ensures Judge(c, m, p, now).failuresInWindow == |kept|
  {
  }

  /**
   * For every clock the reported number and the full-history count over [now - window, now] differ by the failures
   * that a later clock had already pruned and by those that lie ahead of now: it is that count exactly when as many
   * are missing as are ahead.
   */
  lemma CountsForEveryClock(c: Config, log: seq<Failure>, p: Portal, now: int)
    requires Clamped(c)
    ensures var ts := Times(log + [Failure(p, now)], p);
            var reported, count := Judge(c, Replay(c, log), p, now).failuresInWindow,
              CountBetween(ts, now - c.windowMs, now);
            var missing, ahead := Missing(ts, |ts|, c.windowMs, now), Ahead(ts, |ts|, c.windowMs, now);
            reported + missing == count + ahead && (reported == count <==> missing == ahead)
  {
    ReplaySnoc(c, log, Failure(p, now));
    KeepsExactlySurvivors(c, log + [Failure(p, now)], p);
    ReportedLength(c, Replay(c, log), p, now, Times(log + [Failure(p, now)], p));
  }

  lemma ReportedLength(c: Config, m: Monitor, p: Portal, now: int, ts: seq<int>)
    requires ts != [] && ts[|ts| - 1] == now
    requires Recent(Record(c, m, p, now), p) == Survivors(ts, |ts|, c.windowMs)
    ensures Judge(c, m, p, now).failuresInWindow + Missing(ts, |ts|, c.windowMs, now) ==
            CountBetween(ts, now - c.windowMs, now) + Ahead(ts, |ts|, c.windowMs, now)
  {
    JudgedLength(c, m, p, now, Survivors(ts, |ts|, c.windowMs));
    CountedAndMissing(ts, |ts|, c.windowMs, now);
    assert ts[..|ts|] == ts;
  }

  /** With a clock that never steps back nothing is missing and nothing ahead: the number is the full-history count. */
  lemma CountsFullHistory(c: Config, log: seq<Failure>, p: Portal, now: int)
    requires Clamped(c) && ClockNonDecreasing(Times(log + [Failure(p, now)], p))
    ensures Judge(c, Replay(c, log), p, now).failuresInWindow
            == CountBetween(Times(log + [Failure(p, now)], p), now - c.windowMs, now)
  {
    var ts := Times(log + [Failure(p, now)], p);
    ReplaySnoc(c, log, Failure(p, now));
    CountsForEveryClock(c, log, p, now);
    NothingMissing(ts, |ts|, c.windowMs, now);
  }

  /** Successive entries at least d apart. */
  ghost predicate Spaced(xs: seq<int>, d: int) {
    forall i :: 0 < i < |xs| ==> xs[i] - xs[i - 1] >= d
  }

  lemma {:induction false} SpacedSpan(xs: seq<int>, d: int, i: nat)
    requires Spaced(xs, d) && d >= 0 && i < |xs|
    ensures xs[|xs| - 1] >= xs[i]
    ensures xs[|xs| - 1] - xs[0] >= (|xs| - 1) * d
    decreases |xs|
  {
    if |xs| > 1 {
      var ys := xs[..|xs| - 1];
      SpacedSpan(ys, d, Min(i, |ys| - 1));
      assert (|xs| - 1) * d == (|ys| - 1) * d + d;
    }
  }

  lemma AlertSnoc(c: Config, log: seq<Failure>, p: Portal)
    requires log != []
    ensures var e, before := log[|log| - 1], log[..|log| - 1];
            var raised := e.portal == p && Judge(c, Replay(c, before), p, e.at).shouldAlert;
            && Alerts(c, log, p) == Alerts(c, before, p) + (if raised then [e.at] else [])
            && LastAlert(Replay(c, log), p) == (if raised then e.at else LastAlert(Replay(c, before), p))
            && (raised ==> e.at - LastAlert(Replay(c, before), p) >= c.cooldownMs)
            && (raised ==> e.at in Times(log, p))
  {
    var e, before := log[|log| - 1], log[..|log| - 1];
    JudgeSteps(c, Replay(c, before), e, p);
  }

  lemma JudgeSteps(c: Config, m: Monitor, e: Failure, p: Portal)
    ensures var raised := e.portal == p && Judge(c, m, p, e.at).shouldAlert;
            && LastAlert(Record(c, m, e.portal, e.at), p) == (if raised then e.at else LastAlert(m, p))
            && (raised ==> e.at - LastAlert(m, p) >= c.cooldownMs)
  {
  }

  /** The facts below, for the times al of the alerts raised so far and the last one the monitor holds. */
  ghost predicate AlertsTell(al: seq<int>, last: int, ts: seq<int>, cooldownMs: int) {
    && last == (if al == [] then 0 else al[|al| - 1])
    && (al != [] ==> al[0] >= cooldownMs) && Spaced(al, cooldownMs)
    && forall i :: 0 <= i < |al| ==> al[i] in ts
  }

  lemma AlertsTellMore(al: seq<int>, last: int, ts: seq<int>, cooldownMs: int, raised: bool, at: int, ts': seq<int>)
    requires AlertsTell(al, last, ts, cooldownMs) && (forall t :: t in ts ==> t in ts')
    requires raised ==> at - last >= cooldownMs && at in ts'
    ensures AlertsTell(al + if raised then [at] else [], if raised then at else last, ts', cooldownMs)
  {
    if raised {
      var more := al + [at];
      forall i | 0 < i < |more| ensures more[i] - more[i - 1] >= cooldownMs {
        if i == |al| {
          assert more[i - 1] == al[|al| - 1];
        } else {
          assert more[i] == al[i] && more[i - 1] == al[i - 1];
        }
      }
    } else {
      assert al + [] == al;
    }
  }

  lemma {:induction false} AlertFacts(c: Config, log: seq<Failure>, p: Portal)
    requires Clamped(c)
    ensures AlertsTell(Alerts(c, log, p), LastAlert(Replay(c, log), p), Times(log, p), c.cooldownMs)
  {
    if log == [] {
    } else {
      var e, before := log[|log| - 1], log[..|log| - 1];
      AlertFacts(c, before, p);
      AlertSnoc(c, log, p);
      TimesGrow(log, p);
      AlertsTellMore(Alerts(c, before, p), LastAlert(Replay(c, before), p), Times(before, p), c.cooldownMs,
                     e.portal == p && Judge(c, Replay(c, before), p, e.at).shouldAlert, e.at, Times(log, p));
    }
  }

  lemma TimesGrow(log: seq<Failure>, p: Portal)
    requires log != []
    ensures forall t :: t in Times(log[..|log| - 1], p) ==> t in Times(log, p)
  {
    var before := Times(log[..|log| - 1], p);
    forall t | t in before ensures t in Times(log, p) {
      var i :| 0 <= i < |before| && before[i] == t;
      assert Times(log, p)[i] == t;
    }
  }

  /** The reported number reaches the threshold and no alert so far, nor the clock's zero, lies within the cooldown. */
  ghost predicate AlertDue(c: Config, reported: nat, alerts: seq<int>, now: int) {
    reported >= c.threshold && now >= c.cooldownMs && forall i :: 0 <= i < |alerts| ==> now - alerts[i] >= c.cooldownMs
  }

  /**
   * For every clock an alert is raised exactly when the reported number reaches the threshold, no earlier alert of the
   * portal lies within the cooldown, and the clock itself is at least one cooldown past zero.
   */
  lemma AlertsExactly(c: Config, log: seq<Failure>, p: Portal, now: int)
    requires Clamped(c)
    ensures var verdict := Judge(c, Replay(c, log), p, now);
            verdict.shouldAlert <==> AlertDue(c, verdict.failuresInWindow, Alerts(c, log, p), now)
  {
    AlertFacts(c, log, p);
    AlertsWhen(c, Replay(c, log), p, now, Alerts(c, log, p), Times(log, p));
  }

  lemma AlertsWhen(c: Config, m: Monitor, p: Portal, now: int, al: seq<int>, ts: seq<int>)
    requires Clamped(c) && AlertsTell(al, LastAlert(m, p), ts, c.cooldownMs)
    ensures Judge(c, m, p, now).shouldAlert <==> AlertDue(c, Judge(c, m, p, now).failuresInWindow, al, now)
  {
    CooldownOver(al, LastAlert(m, p), ts, c.cooldownMs, now);
  }

  lemma CooldownOver(al: seq<int>, last: int, ts: seq<int>, cooldownMs: int, now: int)
    requires AlertsTell(al, last, ts, cooldownMs) && cooldownMs >= 0
    ensures now - last >= cooldownMs <==> now >= cooldownMs && forall i :: 0 <= i < |al| ==> now - al[i] >= cooldownMs
  {
    forall i | 0 <= i < |al| ensures al[|al| - 1] >= al[i] {
      SpacedSpan(al, cooldownMs, i);
    }
    if al != [] { SpacedSpan(al, cooldownMs, 0); }
  }

  /** Over any run, all alerts of one portal but the first are paid for by a whole cooldown each. */
  lemma AlertRateBounded(c: Config, log: seq<Failure>, p: Portal)
    requires Clamped(c) && ClockNonDecreasing(Times(log, p)) && Alerts(c, log, p) != []
    ensures var ts := Times(log, p);
            ts != [] && (|Alerts(c, log, p)| - 1) * c.cooldownMs <= ts[|ts| - 1] - ts[0]
  {
    AlertFacts(c, log, p);
    var al := Alerts(c, log, p);
    assert al[|al| - 1] in Times(log, p) && al[0] in Times(log, p);
    SpacedSpan(al, c.cooldownMs, 0);
    WithinEnds(Times(log, p), al[0]);
    WithinEnds(Times(log, p), al[|al| - 1]);
  }

  lemma WithinEnds(ts: seq<int>, t: int)
    requires ClockNonDecreasing(ts) && t in ts
    ensures ts[0] <= t <= ts[|ts| - 1]
  {
  }

  /** Two failures at zero, one just past the window, and a clock that then steps back to one. */
  function SteppedBack(w: int): seq<int> { [0, 0, w + 1, 1] }

  lemma SteppedBackSurvivors(w: int)
    requires w >= 1000
    ensures var ts := SteppedBack(w);
            !Survives(ts, 0, w) && !Survives(ts, 1, w) && Survives(ts, 2, w) && Survives(ts, 3, w)
  {
    var ts := SteppedBack(w);
    assert ts[0] < ts[2] - w && ts[1] < ts[2] - w;
    forall j | 2 <= j < |ts| ensures ts[2] >= ts[j] - w { assert j == 2 || j == 3; }
    forall j | 3 <= j < |ts| ensures ts[3] >= ts[j] - w { assert j == 3; }
  }

  lemma SteppedBackCounts(w: int)
    requires w >= 1000
    ensures Missing(SteppedBack(w), 4, w, 1) == 2 && Ahead(SteppedBack(w), 4, w, 1) == 1
  {
    var ts := SteppedBack(w);
    SteppedBackSurvivors(w);
    CountOneMore(ts, 0, w, 1);
    CountOneMore(ts, 1, w, 1);
    CountOneMore(ts, 2, w, 1);
    CountOneMore(ts, 3, w, 1);
  }

  lemma CountOneMore(ts: seq<int>, k: nat, w: int, now: int)
    requires k < |ts|
    ensures Missing(ts, 0, w, now) == 0 && Ahead(ts, 0, w, now) == 0
    ensures Missing(ts, k + 1, w, now) ==
            Missing(ts, k, w, now) + if now - w <= ts[k] <= now && !Survives(ts, k, w) then 1 else 0
    ensures Ahead(ts, k + 1, w, now) == Ahead(ts, k, w, now) + if Survives(ts, k, w) && ts[k] > now then 1 else 0
  {
  }

  lemma TimesSnoc(log: seq<Failure>, e: Failure, p: Portal)
    ensures Times(log + [e], p) == Times(log, p) + if e.portal == p then [e.at] else []
  {
    assert (log + [e])[..|log|] == log;
  }

  /** Three failures of one portal, after which its clock steps back. */
  function LogOfThree(p: Portal, w: int): seq<Failure> { [Failure(p, 0), Failure(p, 0), Failure(p, w + 1)] }

  lemma TimesOfThree(p: Portal, w: int)
    ensures Times(LogOfThree(p, w), p) == [0, 0, w + 1]
  {
    var none: seq<Failure> := [];
    TimesSnoc(none, Failure(p, 0), p);
    TimesSnoc(none + [Failure(p, 0)], Failure(p, 0), p);
    TimesSnoc(none + [Failure(p, 0)] + [Failure(p, 0)], Failure(p, w + 1), p);
    assert none + [Failure(p, 0)] + [Failure(p, 0)] + [Failure(p, w + 1)] == LogOfThree(p, w);
  }

  lemma UndercountsBy(c: Config, log: seq<Failure>, p: Portal)
    requires Clamped(c) && Times(log + [Failure(p, 1)], p) == SteppedBack(c.windowMs)
    ensures Judge(c, Replay(c, log), p, 1).failuresInWindow + 1 ==
            CountBetween(Times(log + [Failure(p, 1)], p), 1 - c.windowMs, 1)
  {
    CountsForEveryClock(c, log, p, 1);
    SteppedBackCounts(c.windowMs);
  }

  /** So a clock that steps back can make the monitor report fewer failures than there were in the window. */
  lemma ClockStepBackUndercounts(c: Config, p: Portal)
    requires Clamped(c)
    ensures var log := LogOfThree(p, c.windowMs);
            Judge(c, Replay(c, log), p, 1).failuresInWindow + 1 ==
            CountBetween(Times(log + [Failure(p, 1)], p), 1 - c.windowMs, 1)
  {
    TimesOfThree(p, c.windowMs);
    TimesSnoc(LogOfThree(p, c.windowMs), Failure(p, 1), p);
    UndercountsBy(c, LogOfThree(p, c.windowMs), p);
  }

  // ------------------------------------------------------------------ the monitor object

  class SelectorHealthMonitor {
    const config: Config
    var failureTimestamps: map<Portal, seq<int>>
    var lastDegradedAt: map<Portal, int>
    /** Everything ever reported. */
    ghost var log: seq<Failure>

    ghost predicate Valid() reads this {
      Clamped(config) && Monitor(failureTimestamps, lastDegradedAt) == Replay(config, log)
    }

    constructor (threshold: Option<int>, windowMs: Option<int>, cooldownMs: Option<int>)
      ensures Valid() && log == [] && config == MakeConfig(threshold, windowMs, cooldownMs)
    {
      config := MakeConfig(threshold, windowMs, cooldownMs);
      failureTimestamps, lastDegradedAt, log := map[], map[], [];
    }

    method RecordFailure(portalId: Portal, now: int) returns (v: Verdict)
      requires Valid()
      modifies this
      ensures Valid()
      ensures log == old(log) + [Failure(KnownAs(portalId), now)]
      ensures v == Judge(config, Replay(config, old(log)), KnownAs(portalId), now)
    {
      v := RecordFor(if portalId == "" then "unknown" else portalId, now);
    }

    method RecordFor(p: Portal, now: int) returns (v: Verdict)
      requires Valid()
      modifies this
      ensures Valid()
      ensures log == old(log) + [Failure(p, now)]
      ensures v == Judge(config, Replay(config, old(log)), p, now)
    {
      ghost var before := Monitor(failureTimestamps, lastDegradedAt);
      var timestamps := if p in failureTimestamps then failureTimestamps[p] else [];
      timestamps := timestamps + [now];
      var floor := now - config.windowMs;
      var recent := NotBefore(timestamps, floor);
      failureTimestamps := failureTimestamps[p := recent];
      var last := if p in lastDegradedAt then lastDegradedAt[p] else 0;
      var coolingDown := now - last < config.cooldownMs;
      var shouldAlert := |recent| >= config.threshold && !coolingDown;
      if shouldAlert {
        lastDegradedAt := lastDegradedAt[p := now];
      }
      v := Verdict(shouldAlert, |recent|);
      RecordIs(config, before, p, now, recent, shouldAlert);
      ReplaySnoc(config, log, Failure(p, now));
      log := log + [Failure(p, now)];
    }
  }

  lemma RecordIs(c: Config, m: Monitor, p: Portal, now: int, recent: seq<int>, shouldAlert: bool)
    requires recent == NotBefore(Recent(m, p) + [now], now - c.windowMs)
    requires shouldAlert <==> |recent| >= c.threshold && !(now - LastAlert(m, p) < c.cooldownMs)
    ensures Record(c, m, p, now) ==
            Monitor(m.recent[p := recent], if shouldAlert then m.lastAlert[p := now] else m.lastAlert)
    ensures Judge(c, m, p, now) == Verdict(shouldAlert, |recent|)
  {
  }

  function KnownAs(portalId: Portal): Portal { if portalId == "" then "unknown" else portalId }
}
