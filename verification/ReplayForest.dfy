/**
 * Termination of the replay forest: deliveries with a bounded number of attempts, fan-out to children, dead
 * letters, and the two counted replay paths that feed them back. Every step of a worker or of the admin endpoint
 * lowers a number computed from the messages in the queues, so without new arrivals every run is finite.
 */
module ReplayForest {
  import opened Basics
  import opened Json
  import opened JobMessages

  datatype Queue = MasterQueue | ChildQueue | RetryQueue | DeadLetters

  /** A message in a queue with the attempts it still has, the current one included; dead letters have no consumer. */
  datatype Token = Token(queue: Queue, data: Message, left: nat)

  /** New jobs get this many attempts. */
  const ATTEMPTS: nat := 5

  /** The limits and switches of a deployment. */
  datatype Config = Config(names: Names, workerCap: nat, adminCap: nat, fanoutAll: bool, other: NumberOf)

  /** The retry worker takes a cap of 0 as none at all. */
  predicate ValidConfig(cfg: Config) { cfg.workerCap > 0 }

  /** getIngestRetryMaxReplays and maxReplayEnv over the numbers in the environment, None when not finite. */
  function WorkerCap(attempts: Option<real>, legacy: Option<real>): nat {
    if attempts.Some? && attempts.value > 0.0 then attempts.value.Floor
    else if legacy.Some? && legacy.value > 0.0 then legacy.value.Floor
    else 5
  }

  function AdminCap(legacy: Option<real>): nat { WorkerCap(None, legacy) }

  type State = seq<Token>

  /**
   * Which adds reach the queue: a partial fan-out, a lost reply or a job id already taken leaves some out. The admin
   * endpoint goes on when it cannot remove the letter it has replayed.
   */
  datatype Action =
    | MasterAttempt(ok: bool, parent: string, clock: string -> string, children: seq<bool>, letter: Option<Failure>)
    | ChildAttempt(ok: bool, letter: Option<Failure>)
    | RetryAttempt(ok: bool, landed: bool)
    | AdminReplays(landed: bool, removed: bool)
    | MoveToRetry(target: Option<string>)
    | Discard

  datatype Event = Event(i: nat, act: Action)

  predicate CanAct(cfg: Config, t: Token, a: Action) {
    match a
    case MasterAttempt(_, _, _, _, _) => t.queue == MasterQueue && t.left > 0
    case ChildAttempt(_, _) => t.queue == ChildQueue && t.left > 0
    case RetryAttempt(ok, _) =>
      t.queue == RetryQueue && t.left > 0 &&
        (ok ==> !ProcessRetry(t.data, cfg.names, cfg.workerCap, cfg.other).InvalidPayload?)
    case AdminReplays(_, _) => t.queue == DeadLetters && AdminReplay(t.data, cfg.adminCap, cfg.other).ReAdd?
    case MoveToRetry(_) => t.queue == DeadLetters
    case Discard => true
  }

  predicate Enabled(cfg: Config, s: State, e: Event) { e.i < |s| && CanAct(cfg, s[e.i], e.act) }

  function QueueOf(r: Route): Queue { if r == ToChild then ChildQueue else MasterQueue }

  function Added(a: Addition): Token { Token(QueueOf(a.route), a.data, ATTEMPTS) }

  function Landing(adds: seq<Addition>, landed: seq<bool>): seq<Token> {
    if adds == [] then []
    else
      (if landed != [] && landed[0] then [Added(adds[0])] else []) +
      Landing(adds[1..], if landed == [] then [] else landed[1..])
  }

  /** After a failed attempt: another one, or the dead-letter queue when it is switched on and the write succeeds. */
  function Failed(t: Token, letter: Option<Failure>): seq<Token>
    requires t.left > 0
  {
    if t.left > 1 then [t.(left := t.left - 1)]
    else if letter.Some? then [Token(DeadLetters, DeadLetter(t.data, letter.value), 0)]
    else []
  }

  function Replayed(r: Replay, landed: bool): seq<Token> { if r.ReAdd? && landed then [Added(r.add)] else [] }

  /** The message an operator puts on the retry queue, with a target of his choice or none. */
  function Retargeted(m: Message, target: Option<string>): Message {
    if target.Some? then m.(target := Some(JStr(target.value))) else m
  }

  /** What takes the place of the token an action consumes. */
  function Successors(cfg: Config, t: Token, a: Action): seq<Token>
    requires CanAct(cfg, t, a)
  {
    match a
    case MasterAttempt(ok, parent, clock, children, letter) =>
      Landing(Children(t.data, parent, cfg.fanoutAll, clock, cfg.other), children) +
      if ok then [] else Failed(t, letter)
    case ChildAttempt(ok, letter) => if ok then [] else Failed(t, letter)
    case RetryAttempt(ok, landed) =>
      Replayed(ProcessRetry(t.data, cfg.names, cfg.workerCap, cfg.other), landed) + if ok then [] else Failed(t, None)
    case AdminReplays(landed, removed) =>
      Replayed(AdminReplay(t.data, cfg.adminCap, cfg.other), landed) + if removed then [] else [t]
    case MoveToRetry(target) => [Token(RetryQueue, Retargeted(t.data, target), ATTEMPTS)]
    case Discard => []
  }

  function Next(cfg: Config, s: State, e: Event): State
    requires Enabled(cfg, s, e)
  {
    s[..e.i] + Successors(cfg, s[e.i], e.act) + s[e.i + 1..]
  }

  ghost predicate IsRun(cfg: Config, s: State, es: seq<Event>)
    decreases |es|
  {
    es == [] || (Enabled(cfg, s, es[0]) && IsRun(cfg, Next(cfg, s, es[0]), es[1..]))
  }

  ghost function After(cfg: Config, s: State, es: seq<Event>): State
    requires IsRun(cfg, s, es)
    decreases |es|
  {
    if es == [] then s else After(cfg, Next(cfg, s, es[0]), es[1..])
  }

  // ------------------------------------------------------------------ the potential

  /** Replays a message may still see on either path. */
  function Cap(cfg: Config): nat { Max(cfg.workerCap, cfg.adminCap) }

  function Budget(cfg: Config, m: Message): nat { Max(0, Cap(cfg) - ReadReplayAttempts(m, cfg.other)) }

  /** Weight of a dead letter with k replays to go: a move to the retry queue or an admin replay must lower it. */
  function LetterWeight(k: nat): nat
    decreases k, 2
  {
    1 + RetryWeight(k, ATTEMPTS)
  }

  function RetryWeight(k: nat, left: nat): nat
    decreases k, 1, left
  {
    if left == 0 then 0 else RetryWeight(k, left - 1) + 1 + if k == 0 then 0 else MasterWeight(k - 1, ATTEMPTS)
  }

  function ChildWeight(k: nat, left: nat): nat
    decreases k, 3
  {
    left + LetterWeight(k)
  }

  /** Every attempt may add up to thirteen children. */
  function MasterWeight(k: nat, left: nat): nat
    decreases k, 4, left
  {
    if left == 0 then LetterWeight(k) else MasterWeight(k, left - 1) + 1 + 13 * ChildWeight(k, ATTEMPTS)
  }

  function Weight(cfg: Config, t: Token): nat {
    var k := Budget(cfg, t.data);
    match t.queue
    case MasterQueue => MasterWeight(k, t.left)
    case ChildQueue => ChildWeight(k, t.left)
    case RetryQueue => RetryWeight(k, t.left)
    case DeadLetters => LetterWeight(k)
  }

  function Potential(cfg: Config, s: State): nat { if s == [] then 0 else Weight(cfg, s[0]) + Potential(cfg, s[1..]) }

  lemma {:induction false} PotentialAdds(cfg: Config, a: State, b: State)
    ensures Potential(cfg, a + b) == Potential(cfg, a) + Potential(cfg, b)
  {
    if a == [] {
      assert a + b == b;
    } else {
      PotentialAdds(cfg, a[1..], b);
      assert (a + b)[1..] == a[1..] + b;
    }
  }

  lemma One(cfg: Config, t: Token)
    ensures Potential(cfg, [t]) == Weight(cfg, t)
  {
    assert [t][1..] == [];
  }

  /** A replayed message weighs no more than a fresh master message one replay further. */
  lemma ChildBelowMaster(k: nat)
    ensures ChildWeight(k, ATTEMPTS) <= MasterWeight(k, ATTEMPTS)
  {
    assert MasterWeight(k, 5) == MasterWeight(k, 4) + 1 + 13 * ChildWeight(k, ATTEMPTS);
  }

  /** An admin replay that leaves its letter behind. */
  predicate KeepsLetter(a: Action) { a.AdminReplays? && !a.removed }

  /** What such a replay may add. */
  function Extra(cfg: Config): nat { 1 + MasterWeight(Cap(cfg), ATTEMPTS) }

  function ExtraOf(cfg: Config, a: Action): nat { if KeepsLetter(a) then Extra(cfg) else 0 }

  function LettersKept(es: seq<Event>): nat {
    if es == [] then 0 else (if KeepsLetter(es[0].act) then 1 else 0) + LettersKept(es[1..])
  }

  lemma MasterStep(k: nat, left: nat)
    requires left > 0
    ensures MasterWeight(k, left) == MasterWeight(k, left - 1) + 1 + 13 * ChildWeight(k, ATTEMPTS)
  {
  }

  lemma {:induction false} MasterGrows(k: nat, left: nat)
    requires k > 0 ==> MasterWeight(k - 1, ATTEMPTS) <= MasterWeight(k, ATTEMPTS)
    ensures MasterWeight(k, left) <= MasterWeight(k + 1, left)
    decreases left
  {
    RetryGrows(k, ATTEMPTS);
    assert ChildWeight(k, ATTEMPTS) <= ChildWeight(k + 1, ATTEMPTS);
    if left == 0 {
      assert MasterWeight(k, 0) == LetterWeight(k) && MasterWeight(k + 1, 0) == LetterWeight(k + 1);
    } else {
      MasterGrows(k, left - 1);
      MasterStep(k, left);
      MasterStep(k + 1, left);
    }
  }

  lemma {:induction false} RetryGrows(k: nat, left: nat)
    requires k > 0 ==> MasterWeight(k - 1, ATTEMPTS) <= MasterWeight(k, ATTEMPTS)
    ensures RetryWeight(k, left) <= RetryWeight(k + 1, left)
    decreases left
  {
    if left > 0 { RetryGrows(k, left - 1); }
  }

  lemma {:induction false} MasterGrowsOnce(k: nat)
    ensures MasterWeight(k, ATTEMPTS) <= MasterWeight(k + 1, ATTEMPTS)
  {
    if k > 0 { MasterGrowsOnce(k - 1); }
    MasterGrows(k, ATTEMPTS);
  }

  /** The more replays a message may still see, the more it weighs. */
  lemma {:induction false} MasterMonotone(k: nat, n: nat)
    requires k <= n
    ensures MasterWeight(k, ATTEMPTS) <= MasterWeight(n, ATTEMPTS)
    decreases n
  {
    if k < n {
      MasterMonotone(k, n - 1);
      MasterGrowsOnce(n - 1);
    }
  }

  // ------------------------------------------------------------------ every step lowers it

  /** Queued work carries no failure data, and no counter past the larger cap. */
  predicate TokenInv(cfg: Config, t: Token) {
    (t.queue == MasterQueue || t.queue == ChildQueue) ==>
      Clean(t.data) && ReadReplayAttempts(t.data, cfg.other) <= Cap(cfg)
  }

  predicate Inv(cfg: Config, s: State) { forall i :: 0 <= i < |s| ==> TokenInv(cfg, s[i]) }

  /** An add that a master message makes: a child that counts what the master counted. */
  predicate ChildOf(cfg: Config, m: Message, a: Addition) {
    a.route == ToChild && Clean(a.data) && ReadReplayAttempts(a.data, cfg.other) == ReadReplayAttempts(m, cfg.other)
  }

  lemma OneChildWeighs(cfg: Config, m: Message, a: Addition)
    requires ReadReplayAttempts(m, cfg.other) <= Cap(cfg) && ChildOf(cfg, m, a)
    ensures TokenInv(cfg, Added(a)) && Weight(cfg, Added(a)) == ChildWeight(Budget(cfg, m), ATTEMPTS)
  {
  }

  lemma OneMoreLands(cfg: Config, head: seq<Token>, rest: seq<Token>, n: nat, w: nat)
    requires n > 0 && |head| <= 1 && Inv(cfg, head) && Inv(cfg, rest)
    requires (head != [] ==> Weight(cfg, head[0]) <= w) && Potential(cfg, rest) <= (n - 1) * w
    ensures Potential(cfg, head + rest) <= n * w && Inv(cfg, head + rest)
  {
    Factor(n, w);
    PotentialAdds(cfg, head, rest);
    if head != [] {
      One(cfg, head[0]);
      assert head == [head[0]];
    }
  }

  lemma {:induction false} LandingWeighs(cfg: Config, m: Message, adds: seq<Addition>, landed: seq<bool>)
    requires ReadReplayAttempts(m, cfg.other) <= Cap(cfg)
    requires forall i :: 0 <= i < |adds| ==> ChildOf(cfg, m, adds[i])
    ensures Potential(cfg, Landing(adds, landed)) <= |adds| * ChildWeight(Budget(cfg, m), ATTEMPTS)
    ensures Inv(cfg, Landing(adds, landed))
  {
    if adds != [] {
      var rest := if landed == [] then [] else landed[1..];
      LandingWeighs(cfg, m, adds[1..], rest);
      OneChildWeighs(cfg, m, adds[0]);
      OneMoreLands(cfg, if landed != [] && landed[0] then [Added(adds[0])] else [], Landing(adds[1..], rest),
                   |adds|, ChildWeight(Budget(cfg, m), ATTEMPTS));
    }
  }

  lemma Factor(n: nat, w: nat)
    requires n > 0
    ensures n * w == w + (n - 1) * w
  {
  }

  lemma Bounded(n: nat, w: nat)
    requires n <= 13
    ensures n * w <= 13 * w
  {
  }

  /** Failing costs an attempt, and a letter weighs less than the last one. */
  lemma FailedWeighs(cfg: Config, t: Token, letter: Option<Failure>)
    requires t.left > 0 && TokenInv(cfg, t)
    requires t.queue == MasterQueue || t.queue == ChildQueue || (t.queue == RetryQueue && letter.None?)
    ensures Inv(cfg, Failed(t, letter))
    ensures t.queue == MasterQueue ==>
            Potential(cfg, Failed(t, letter)) <= MasterWeight(Budget(cfg, t.data), t.left - 1)
    ensures t.queue == ChildQueue ==> Potential(cfg, Failed(t, letter)) < Weight(cfg, t)
    ensures t.queue == RetryQueue ==> Potential(cfg, Failed(t, letter)) <= RetryWeight(Budget(cfg, t.data), t.left - 1)
  {
    One(cfg, t.(left := t.left - 1));
    if letter.Some? {
      DeadLetterKeepsCount(t.data, letter.value, cfg.other);
      One(cfg, Token(DeadLetters, DeadLetter(t.data, letter.value), 0));
    }
  }

  lemma MasterAttemptLowers(cfg: Config, t: Token, a: Action)
    requires a.MasterAttempt? && CanAct(cfg, t, a) && TokenInv(cfg, t)
    ensures Potential(cfg, Successors(cfg, t, a)) < Weight(cfg, t) && Inv(cfg, Successors(cfg, t, a))
  {
    var k := Budget(cfg, t.data);
    var adds := Children(t.data, a.parent, cfg.fanoutAll, a.clock, cfg.other);
    forall i | 0 <= i < |adds| ensures ChildOf(cfg, t.data, adds[i]) {
      ChildrenKeepCount(t.data, a.parent, cfg.fanoutAll, a.clock, cfg.other, i);
    }
    var children, rest := Landing(adds, a.children), if a.ok then [] else Failed(t, a.letter);
    LandingWeighs(cfg, t.data, adds, a.children);
    Bounded(|adds|, ChildWeight(k, ATTEMPTS));
    FailedWeighs(cfg, t, a.letter);
    PotentialAdds(cfg, children, rest);
  }

  lemma ReplayWeighs(cfg: Config, raw: Message, r: Replay, landed: bool)
    requires ValidConfig(cfg)
    requires r == ProcessRetry(raw, cfg.names, cfg.workerCap, cfg.other) ||
             r == AdminReplay(raw, cfg.adminCap, cfg.other)
    ensures Inv(cfg, Replayed(r, landed))
    ensures Budget(cfg, raw) == 0 ==> Replayed(r, landed) == []
    ensures Budget(cfg, raw) > 0 ==> Potential(cfg, Replayed(r, landed)) <= MasterWeight(Budget(cfg, raw) - 1, ATTEMPTS)
  {
    ReplayCounts(raw, cfg.names, cfg.workerCap, cfg.other);
    ReplayCounts(raw, cfg.names, cfg.adminCap, cfg.other);
    if r.ReAdd? {
      One(cfg, Added(r.add));
      ChildBelowMaster(Budget(cfg, r.add.data));
    }
  }

  lemma RetryAttemptLowers(cfg: Config, t: Token, a: Action)
    requires ValidConfig(cfg) && a.RetryAttempt? && CanAct(cfg, t, a) && TokenInv(cfg, t)
    ensures Potential(cfg, Successors(cfg, t, a)) < Weight(cfg, t) && Inv(cfg, Successors(cfg, t, a))
  {
    var r := ProcessRetry(t.data, cfg.names, cfg.workerCap, cfg.other);
    ReplayWeighs(cfg, t.data, r, a.landed);
    FailedWeighs(cfg, t, None);
    PotentialAdds(cfg, Replayed(r, a.landed), if a.ok then [] else Failed(t, None));
  }

  lemma RetargetKeepsCount(m: Message, target: Option<string>, other: NumberOf)
    ensures ReadReplayAttempts(Retargeted(m, target), other) == ReadReplayAttempts(m, other)
  {
  }

  /** A letter pays for its replay. */
  lemma LetterPays(cfg: Config, t: Token, landed: bool)
    requires ValidConfig(cfg) && t.queue == DeadLetters
    ensures var replayed := Replayed(AdminReplay(t.data, cfg.adminCap, cfg.other), landed);
            Potential(cfg, replayed) < Weight(cfg, t) && Potential(cfg, replayed) < Extra(cfg) && Inv(cfg, replayed)
  {
    var k := Budget(cfg, t.data);
    ReplayWeighs(cfg, t.data, AdminReplay(t.data, cfg.adminCap, cfg.other), landed);
    if k > 0 {
      assert RetryWeight(k, 5) >= MasterWeight(k - 1, ATTEMPTS);
      MasterMonotone(k - 1, Cap(cfg));
    }
  }

  lemma AdminStepLowers(cfg: Config, t: Token, a: Action)
    requires ValidConfig(cfg) && a.AdminReplays? && CanAct(cfg, t, a)
    ensures Potential(cfg, Successors(cfg, t, a)) < Weight(cfg, t) + ExtraOf(cfg, a) && Inv(cfg, Successors(cfg, t, a))
  {
    LetterPays(cfg, t, a.landed);
    PotentialAdds(cfg, Replayed(AdminReplay(t.data, cfg.adminCap, cfg.other), a.landed), if a.removed then [] else [t]);
    One(cfg, t);
  }

  lemma MoveLowers(cfg: Config, t: Token, a: Action)
    requires a.MoveToRetry? && CanAct(cfg, t, a)
    ensures Potential(cfg, Successors(cfg, t, a)) < Weight(cfg, t) && Inv(cfg, Successors(cfg, t, a))
  {
    RetargetKeepsCount(t.data, a.target, cfg.other);
    One(cfg, Token(RetryQueue, Retargeted(t.data, a.target), ATTEMPTS));
  }

  /** Only throwing away a retry message that has no attempts left costs nothing; every message in play has some. */
  predicate Alive(t: Token) { t.queue == RetryQueue ==> t.left > 0 }

  lemma WeightPositive(cfg: Config, t: Token)
    requires Alive(t)
    ensures Weight(cfg, t) > 0
  {
    var k := Budget(cfg, t.data);
    assert LetterWeight(k) == 1 + RetryWeight(k, ATTEMPTS);
    if t.queue == MasterQueue {
      MasterAboveLetter(k, t.left);
    } else if t.queue == RetryQueue {
      assert RetryWeight(k, t.left) ==
             RetryWeight(k, t.left - 1) + 1 + if k == 0 then 0 else MasterWeight(k - 1, ATTEMPTS);
    }
  }

  lemma {:induction false} MasterAboveLetter(k: nat, left: nat)
    ensures MasterWeight(k, left) >= LetterWeight(k)
  {
    if left > 0 { MasterAboveLetter(k, left - 1); }
  }

  lemma TokenStepLowers(cfg: Config, t: Token, a: Action)
    requires ValidConfig(cfg) && CanAct(cfg, t, a) && TokenInv(cfg, t) && Alive(t)
    ensures Potential(cfg, Successors(cfg, t, a)) < Weight(cfg, t) + ExtraOf(cfg, a) && Inv(cfg, Successors(cfg, t, a))
  {
    match a
    case MasterAttempt(_, _, _, _, _) => MasterAttemptLowers(cfg, t, a);
    case ChildAttempt(ok, letter) =>
      WeightPositive(cfg, t);
      FailedWeighs(cfg, t, letter);
    case RetryAttempt(_, _) => RetryAttemptLowers(cfg, t, a);
    case AdminReplays(_, _) => AdminStepLowers(cfg, t, a);
    case MoveToRetry(_) => MoveLowers(cfg, t, a);
    case Discard => WeightPositive(cfg, t);
  }

  predicate AllAlive(s: State) { forall i :: 0 <= i < |s| ==> Alive(s[i]) }

  lemma {:induction false} LandingAlive(adds: seq<Addition>, landed: seq<bool>)
    ensures AllAlive(Landing(adds, landed))
  {
    if adds != [] { LandingAlive(adds[1..], if landed == [] then [] else landed[1..]); }
  }

  lemma SuccessorsAlive(cfg: Config, t: Token, a: Action)
    requires CanAct(cfg, t, a)
    ensures AllAlive(Successors(cfg, t, a))
  {
    if a.MasterAttempt? { LandingAlive(Children(t.data, a.parent, cfg.fanoutAll, a.clock, cfg.other), a.children); }
  }

  lemma SpliceLowers(cfg: Config, before: State, t: Token, next: State, after: State, extra: nat)
    requires Potential(cfg, next) < Weight(cfg, t) + extra
    ensures Potential(cfg, before + next + after) < Potential(cfg, before + [t] + after) + extra
  {
    PotentialAdds(cfg, before + next, after);
    PotentialAdds(cfg, before, next);
    PotentialAdds(cfg, before + [t], after);
    PotentialAdds(cfg, before, [t]);
    One(cfg, t);
  }

  lemma SpliceKeeps(cfg: Config, before: State, next: State, after: State)
    requires Inv(cfg, before) && Inv(cfg, next) && Inv(cfg, after) && AllAlive(before) && AllAlive(next) &&
             AllAlive(after)
    ensures Inv(cfg, before + next + after) && AllAlive(before + next + after)
  {
  }

  /**
   * Every step of a worker, an operator or the admin endpoint strictly lowers the potential, but for an admin replay
   * that cannot remove its letter, which raises it by less than the weight of one replayed message and one.
   */
  lemma StepLowersPotential(cfg: Config, s: State, e: Event)
    requires ValidConfig(cfg) && Inv(cfg, s) && AllAlive(s) && Enabled(cfg, s, e)
    ensures Potential(cfg, Next(cfg, s, e)) < Potential(cfg, s) + ExtraOf(cfg, e.act)
    ensures Inv(cfg, Next(cfg, s, e)) && AllAlive(Next(cfg, s, e))
  {
    var next := Successors(cfg, s[e.i], e.act);
    TokenStepLowers(cfg, s[e.i], e.act);
    SuccessorsAlive(cfg, s[e.i], e.act);
    SpliceLowers(cfg, s[..e.i], s[e.i], next, s[e.i + 1..], ExtraOf(cfg, e.act));
    SpliceKeeps(cfg, s[..e.i], next, s[e.i + 1..]);
    assert s == s[..e.i] + [s[e.i]] + s[e.i + 1..];
  }

  // ------------------------------------------------------------------ main result

  lemma AfterHead(cfg: Config, s: State, es: seq<Event>)
    requires es != [] && IsRun(cfg, s, es)
    ensures Enabled(cfg, s, es[0]) && IsRun(cfg, Next(cfg, s, es[0]), es[1..])
    ensures After(cfg, s, es) == After(cfg, Next(cfg, s, es[0]), es[1..])
  {
  }

  /**
   * Without new arrivals a run is no longer than the potential of the messages it starts from and a fixed number for
   * every letter an admin replay left behind; with none left behind every run ends. At its end no message on the
   * master or child queue counts more replays than the larger cap.
   */
  lemma {:induction false} ReplaysTerminate(cfg: Config, s: State, es: seq<Event>)
    requires ValidConfig(cfg) && Inv(cfg, s) && AllAlive(s) && IsRun(cfg, s, es)
    ensures |es| + Potential(cfg, After(cfg, s, es)) <= Potential(cfg, s) + LettersKept(es) * Extra(cfg)
    ensures Inv(cfg, After(cfg, s, es)) && AllAlive(After(cfg, s, es))
    decreases |es|
  {
    if es != [] {
      AfterHead(cfg, s, es);
      StepLowersPotential(cfg, s, es[0]);
      ReplaysTerminate(cfg, Next(cfg, s, es[0]), es[1..]);
      assert LettersKept(es) == (if KeepsLetter(es[0].act) then 1 else 0) + LettersKept(es[1..]);
      BoundGrows(|es[1..]|, Potential(cfg, After(cfg, s, es)), Potential(cfg, Next(cfg, s, es[0])), Potential(cfg, s),
                 LettersKept(es[1..]), KeepsLetter(es[0].act), Extra(cfg));
    }
  }

  lemma BoundGrows(n: nat, last: nat, next: nat, first: nat, rest: nat, kept: bool, extra: nat)
    requires n + last <= next + rest * extra && next < first + if kept then extra else 0
    ensures n + 1 + last <= first + ((if kept then 1 else 0) + rest) * extra
  {
    if kept { assert (1 + rest) * extra == extra + rest * extra; } else { assert (0 + rest) * extra == rest * extra; }
  }

  /** The bound has to count them: a letter that is never removed can be replayed in runs of every length. */
  lemma {:induction false} KeptLettersNoEnd(cfg: Config, s: State, i: nat, n: nat)
    requires i < |s| && s[i].queue == DeadLetters && AdminReplay(s[i].data, cfg.adminCap, cfg.other).ReAdd?
    ensures var es := Again(Event(i, AdminReplays(false, false)), n);
            IsRun(cfg, s, es) && |es| == n && LettersKept(es) == n && After(cfg, s, es) == s
    decreases n
  {
    if n > 0 {
      var e := Event(i, AdminReplays(false, false));
      KeptLettersNoEnd(cfg, s, i, n - 1);
      assert Successors(cfg, s[i], e.act) == [s[i]] && Next(cfg, s, e) == s;
      assert ([e] + Again(e, n - 1))[1..] == Again(e, n - 1);
    }
  }

  function Again(e: Event, n: nat): seq<Event> { if n == 0 then [] else [e] + Again(e, n - 1) }

  /** A message as it arrives: from the API on the master queue, or from the reset of the failed-job replay. */
  predicate Arrival(cfg: Config, t: Token) {
    t.left == ATTEMPTS && ReadReplayAttempts(t.data, cfg.other) == 0 && t.queue != DeadLetters &&
      (t.queue == RetryQueue || Clean(t.data))
  }

  /** Whatever arrives, each arrival and each letter left behind can cause only so many steps. */
  lemma ArrivalsTerminate(cfg: Config, s: State, es: seq<Event>)
    requires ValidConfig(cfg) && (forall i :: 0 <= i < |s| ==> Arrival(cfg, s[i])) && IsRun(cfg, s, es)
    ensures |es| <= |s| * Max(MasterWeight(Cap(cfg), ATTEMPTS), RetryWeight(Cap(cfg), ATTEMPTS)) +
            LettersKept(es) * Extra(cfg)
    ensures forall t :: t in After(cfg, s, es) && (t.queue == MasterQueue || t.queue == ChildQueue) ==>
              ReadReplayAttempts(t.data, cfg.other) <= Cap(cfg)
  {
    ReplaysTerminate(cfg, s, es);
    ArrivalsWeigh(cfg, s);
    var after := After(cfg, s, es);
    forall t | t in after && (t.queue == MasterQueue || t.queue == ChildQueue)
      ensures ReadReplayAttempts(t.data, cfg.other) <= Cap(cfg)
    {
      var i :| 0 <= i < |after| && after[i] == t;
      assert TokenInv(cfg, after[i]);
    }
  }

  lemma {:induction false} ArrivalsWeigh(cfg: Config, s: State)
    requires forall i :: 0 <= i < |s| ==> Arrival(cfg, s[i])
    ensures Potential(cfg, s) <= |s| * Max(MasterWeight(Cap(cfg), ATTEMPTS), RetryWeight(Cap(cfg), ATTEMPTS))
  {
    if s != [] {
      ArrivalsWeigh(cfg, s[1..]);
      var w := Max(MasterWeight(Cap(cfg), ATTEMPTS), RetryWeight(Cap(cfg), ATTEMPTS));
      assert Arrival(cfg, s[0]);
      ChildBelowMaster(Cap(cfg));
      Factor(|s|, w);
    }
  }

  // ------------------------------------------------------------------ what becomes of a message

  /** Exactly the adds that reached the queue are there, in order, as new jobs. */
  lemma {:induction false} LandingExactly(adds: seq<Addition>, landed: seq<bool>)
    ensures |Landing(adds, landed)| <= |adds|
    ensures forall i :: 0 <= i < |adds| && i < |landed| && landed[i] ==> Added(adds[i]) in Landing(adds, landed)
    ensures forall t :: t in Landing(adds, landed) ==>
              exists i :: 0 <= i < |adds| && i < |landed| && landed[i] && t == Added(adds[i])
    decreases |adds|
  {
    if adds != [] {
      var rest := if landed == [] then [] else landed[1..];
      LandingExactly(adds[1..], rest);
      assert forall i :: 0 < i < |adds| && i < |landed| ==> adds[1..][i - 1] == adds[i] && rest[i - 1] == landed[i];
      forall t | t in Landing(adds, landed)
        ensures exists i :: 0 <= i < |adds| && i < |landed| && landed[i] && t == Added(adds[i])
      {
        if t in Landing(adds[1..], rest) {
          var i :| 0 <= i < |adds| - 1 && i < |rest| && rest[i] && t == Added(adds[1..][i]);
          assert landed[i + 1] && t == Added(adds[i + 1]);
        }
      }
    }
  }

  predicate FailsAttempt(a: Action) {
    match a
    case MasterAttempt(ok, _, _, _, _) => !ok
    case ChildAttempt(ok, _) => !ok
    case RetryAttempt(ok, _) => !ok
    case _ => false
  }

  /** The letter the failure handler wrote, if it did; the retry worker has none. */
  function LetterWritten(a: Action): Option<Failure> {
    match a
    case MasterAttempt(_, _, _, _, letter) => letter
    case ChildAttempt(_, letter) => letter
    case _ => None
  }

  /** What a failed attempt leaves of its message: one attempt fewer, or its dead letter if one was written. */
  function KeptAfter(t: Token, letter: Option<Failure>): seq<Token> {
    if t.left > 1 then [t.(left := t.left - 1)]
    else if letter.Some? then [Token(DeadLetters, DeadLetter(t.data, letter.value), 0)]
    else []
  }

  ghost predicate NewJobs(s: seq<Token>) { forall t :: t in s ==> t.left == ATTEMPTS && t.queue != DeadLetters }

  /**
   * A failed attempt loses nothing: what it added before it failed stays, and its message stays
   * in its queue with one attempt fewer, or after the last one as the dead letter that was written.
   */
  lemma FailedAttemptExactly(cfg: Config, t: Token, a: Action)
    requires CanAct(cfg, t, a) && FailsAttempt(a)
    ensures exists added :: NewJobs(added) && Successors(cfg, t, a) == added + KeptAfter(t, LetterWritten(a))
  {
    match a
    case MasterAttempt(_, parent, clock, children, letter) =>
      var adds := Children(t.data, parent, cfg.fanoutAll, clock, cfg.other);
      LandingExactly(adds, children);
      assert NewJobs(Landing(adds, children));
      assert Successors(cfg, t, a) == Landing(adds, children) + KeptAfter(t, letter);
    case ChildAttempt(_, letter) =>
      assert NewJobs([]) && Successors(cfg, t, a) == [] + KeptAfter(t, letter);
    case RetryAttempt(_, landed) =>
      var added := Replayed(ProcessRetry(t.data, cfg.names, cfg.workerCap, cfg.other), landed);
      assert NewJobs(added) && Successors(cfg, t, a) == added + KeptAfter(t, None);
    case _ =>
  }

  /** The n-th failed attempt in a row of a child, which writes a letter if it is the last. */
  function ChildFails(i: nat, n: nat, letter: Failure): seq<Event> {
    if n == 0 then [] else [Event(i, ChildAttempt(false, Some(letter)))] + ChildFails(i, n - 1, letter)
  }

  /**
   * A child message that fails at every attempt it has becomes the dead letter of that very
   * message, not sooner and not later, and no other message moves.
   */
  lemma {:induction false} FailedChildIsDeadLetter(cfg: Config, s: State, i: nat, n: nat, letter: Failure)
    requires i < |s| && s[i].queue == ChildQueue && 0 < n <= s[i].left
    ensures Reaches(cfg, s, ChildFails(i, n, letter),
                    s[i := if n < s[i].left then s[i].(left := s[i].left - n)
                           else Token(DeadLetters, DeadLetter(s[i].data, letter), 0)])
    decreases n
  {
    var e := Event(i, ChildAttempt(false, Some(letter)));
    var t := Next(cfg, s, e);
    assert t == s[i := if s[i].left > 1 then s[i].(left := s[i].left - 1)
                       else Token(DeadLetters, DeadLetter(s[i].data, letter), 0)];
    if n > 1 {
      FailedChildIsDeadLetter(cfg, t, i, n - 1, letter);
    }
    var end := s[i := if n < s[i].left then s[i].(left := s[i].left - n)
                      else Token(DeadLetters, DeadLetter(s[i].data, letter), 0)];
    ReachesCons(cfg, s, e, ChildFails(i, n - 1, letter), end);
  }

  // ------------------------------------------------------------------ and without a cap it does not

  /** The i-th setting is the first that is a positive number. */
  ghost predicate Decides(settings: seq<Option<real>>, i: nat) {
    && i < |settings| && settings[i].Some? && settings[i].value > 0.0
    && forall j :: 0 <= j < i ==> settings[j].None? || settings[j].value <= 0.0
  }

  /** The cap is the deciding setting rounded down, and five without one. */
  lemma CapIsDecidingSetting(attempts: Option<real>, legacy: Option<real>)
    ensures forall i: nat :: Decides([attempts, legacy], i)
                             ==> WorkerCap(attempts, legacy) == [attempts, legacy][i].value.Floor
    ensures !Decides([attempts, legacy], 0) && !Decides([attempts, legacy], 1) ==> WorkerCap(attempts, legacy) == 5
    ensures if Decides([legacy], 0) then AdminCap(legacy) == legacy.value.Floor else AdminCap(legacy) == 5
  {
    var settings := [attempts, legacy];
    forall i: nat | Decides(settings, i) ensures WorkerCap(attempts, legacy) == settings[i].value.Floor {
      if i == 1 { assert settings[0].None? || settings[0].value <= 0.0; }
    }
    assert !Decides(settings, 0) ==> settings[0].None? || settings[0].value <= 0.0;
    assert Decides([legacy], 0) <==> legacy.Some? && legacy.value > 0.0;
  }

  /** A fraction of one in the environment is positive, and rounds down to no cap. */
  lemma FractionalCapIsNone(attempts: Option<real>, legacy: Option<real>)
    ensures WorkerCap(attempts, legacy) == 0 <==>
            if attempts.Some? && attempts.value > 0.0 then attempts.value < 1.0
            else legacy.Some? && 0.0 < legacy.value < 1.0
    ensures AdminCap(legacy) == 0 <==> legacy.Some? && 0.0 < legacy.value < 1.0
  {
  }

  /** The run es leads from s to t. */
  ghost predicate Reaches(cfg: Config, s: State, es: seq<Event>, t: State) {
    IsRun(cfg, s, es) && After(cfg, s, es) == t
  }

  lemma ReachesCons(cfg: Config, s: State, e: Event, es: seq<Event>, t: State)
    requires Enabled(cfg, s, e) && Reaches(cfg, Next(cfg, s, e), es, t)
    ensures Reaches(cfg, s, [e] + es, t)
  {
    assert ([e] + es)[1..] == es;
  }

  /** A retry message bound for the master queue. */
  predicate Bound(m: Message) { ValidCore(m) && m.target == Some(JStr("master")) }

  /** Nothing but such a message. */
  predicate Cycling(s: State) { |s| == 1 && s[0].queue == RetryQueue && s[0].left == ATTEMPTS && Bound(s[0].data) }

  function CycleFailure(cfg: Config): Failure { Failure("down", cfg.names.master, "", "master", "", 5.0, 5.0) }

  function Letter(cfg: Config, m: Message): Token { Token(DeadLetters, DeadLetter(m, CycleFailure(cfg)), 0) }

  function GiveUp(cfg: Config): Event { Event(0, MasterAttempt(false, "", t => t, [], Some(CycleFailure(cfg)))) }

  lemma GivesUp(cfg: Config, t: Token)
    requires t.queue == MasterQueue && t.left > 0
    ensures Enabled(cfg, [t], GiveUp(cfg)) && Next(cfg, [t], GiveUp(cfg)) == Failed(t, Some(CycleFailure(cfg)))
  {
    var a := GiveUp(cfg).act;
    NothingLands(Children(t.data, a.parent, cfg.fanoutAll, a.clock, cfg.other));
  }

  lemma {:induction false} NothingLands(adds: seq<Addition>)
    ensures Landing(adds, []) == []
  {
    if adds != [] { NothingLands(adds[1..]); }
  }

  /** A master message that fails every attempt becomes a letter, from which the run may go on. */
  lemma {:induction false} FailsToTheEnd(cfg: Config, t: Token, rest: seq<Event>, end: State) returns (es: seq<Event>)
    requires t.queue == MasterQueue && t.left > 0 && Reaches(cfg, [Letter(cfg, t.data)], rest, end)
    ensures Reaches(cfg, [t], es, end) && |es| == t.left + |rest|
    decreases t.left
  {
    var tail := rest;
    if t.left > 1 { tail := FailsToTheEnd(cfg, t.(left := t.left - 1), rest, end); }
    GivesUp(cfg, t);
    ReachesCons(cfg, [t], GiveUp(cfg), tail, end);
    es := [GiveUp(cfg)] + tail;
  }

  lemma UncappedReplay(m: Message, cfg: Config)
    requires cfg.workerCap == 0 && Bound(m)
    ensures var r := ProcessRetry(m, cfg.names, cfg.workerCap, cfg.other);
            r.ReAdd? && r.add.route == ToMaster && ValidCore(r.add.data)
  {
  }

  function Queued(cfg: Config, m: Message): Message
    requires cfg.workerCap == 0 && Bound(m)
  {
    ProcessRetry(m, cfg.names, cfg.workerCap, cfg.other).add.data
  }

  /** The retry message after one round. */
  function Recycled(cfg: Config, m: Message): Message
    requires cfg.workerCap == 0 && Bound(m)
  {
    Retargeted(DeadLetter(Queued(cfg, m), CycleFailure(cfg)), Some("master"))
  }

  function Waiting(m: Message): State { [Token(RetryQueue, m, ATTEMPTS)] }

  lemma RetrySteps(cfg: Config, m: Message)
    requires cfg.workerCap == 0 && Bound(m)
    ensures var e := Event(0, RetryAttempt(true, true));
            Enabled(cfg, Waiting(m), e) && Next(cfg, Waiting(m), e) == [Token(MasterQueue, Queued(cfg, m), ATTEMPTS)]
  {
    UncappedReplay(m, cfg);
  }

  lemma MoveSteps(cfg: Config, m: Message)
    ensures var e := Event(0, MoveToRetry(Some("master")));
            var next := Retargeted(DeadLetter(m, CycleFailure(cfg)), Some("master"));
            Enabled(cfg, [Letter(cfg, m)], e) && Next(cfg, [Letter(cfg, m)], e) == Waiting(next)
  {
  }

  lemma RecycledBound(cfg: Config, m: Message)
    requires cfg.workerCap == 0 && Bound(m)
    ensures Bound(Recycled(cfg, m))
  {
    UncappedReplay(m, cfg);
  }

  /** Replayed, failed five times, dead-lettered and moved back by the operator: seven steps, and it starts over. */
  lemma Cycle(cfg: Config, m: Message, rest: seq<Event>, end: State) returns (es: seq<Event>)
    requires cfg.workerCap == 0 && Bound(m) && Reaches(cfg, Waiting(Recycled(cfg, m)), rest, end)
    ensures Reaches(cfg, Waiting(m), es, end) && |es| == 7 + |rest|
  {
    var move, retry := Event(0, MoveToRetry(Some("master"))), Event(0, RetryAttempt(true, true));
    MoveSteps(cfg, Queued(cfg, m));
    ReachesCons(cfg, [Letter(cfg, Queued(cfg, m))], move, rest, end);
    var fails := FailsToTheEnd(cfg, Token(MasterQueue, Queued(cfg, m), ATTEMPTS), [move] + rest, end);
    RetrySteps(cfg, m);
    ReachesCons(cfg, Waiting(m), retry, fails, end);
    es := [retry] + fails;
  }

  /** With a cap of 0 a job that keeps failing is replayed without end: there are runs of every length. */
  lemma {:induction false} NoCapNoEnd(cfg: Config, s: State, n: nat) returns (es: seq<Event>)
    requires cfg.workerCap == 0 && Cycling(s)
    ensures IsRun(cfg, s, es) && |es| == 7 * n && Cycling(After(cfg, s, es))
    decreases n
  {
    if n == 0 {
      es := [];
    } else {
      var m := s[0].data;
      RecycledBound(cfg, m);
      var rest := NoCapNoEnd(cfg, Waiting(Recycled(cfg, m)), n - 1);
      es := Cycle(cfg, m, rest, After(cfg, Waiting(Recycled(cfg, m)), rest));
      assert s == Waiting(m);
    }
  }
}
