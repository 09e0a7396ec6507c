/**
 * The replay handlers over the queues themselves. A queue keeps finished and failed jobs for a while, and an add
 * under an id it still keeps does nothing.
 */
module ReplayQueues {
  import opened Basics
  import opened Json
  import opened JobMessages

  type Jobs = map<string, Message>

  datatype Queues = Queues(master: Jobs, child: Jobs, dlq: Jobs)

  function Target(q: Queues, r: Route): Jobs { if r == ToChild then q.child else q.master }

  /** Queue.add with a job id. */
  function Enqueued(q: Queues, a: Addition): Queues {
    if a.jobId in Target(q, a.route) then q
    else if a.route == ToChild then q.(child := q.child[a.jobId := a.data])
    else q.(master := q.master[a.jobId := a.data])
  }

  function AfterReplay(q: Queues, r: Replay): Queues { if r.ReAdd? then Enqueued(q, r.add) else q }

  /** POST /retry-replay: 404 without the letter, 400 at the cap or for a payload that is not valid, else 200. */
  function AdminStatus(q: Queues, letter: string, cap: nat, other: NumberOf): nat {
    if letter !in q.dlq then 404 else if AdminReplay(q.dlq[letter], cap, other).ReAdd? then 200 else 400
  }

  function AfterAdmin(q: Queues, letter: string, cap: nat, other: NumberOf, removed: bool): Queues {
    if AdminStatus(q, letter, cap, other) != 200 then q
    else
      var t := AfterReplay(q, AdminReplay(q.dlq[letter], cap, other));
      if removed then t.(dlq := t.dlq - {letter}) else t
  }

  /** The work a letter stands for is queued. */
  predicate Holds(q: Queues, a: Addition) { a.jobId in Target(q, a.route) && Target(q, a.route)[a.jobId] == a.data }

  /** An answer of 200 means the message is queued exactly when its id was free, or held this very message. */
  lemma AcceptedReplayIsQueuedIff(q: Queues, letter: string, cap: nat, other: NumberOf, removed: bool)
    requires AdminStatus(q, letter, cap, other) == 200
    ensures var a := AdminReplay(q.dlq[letter], cap, other).add;
            Holds(AfterAdmin(q, letter, cap, other, removed), a) <==> a.jobId !in Target(q, a.route) || Holds(q, a)
  {
    var a := AdminReplay(q.dlq[letter], cap, other).add;
    EnqueuedHolds(q, a);
  }

  lemma EnqueuedHolds(q: Queues, a: Addition)
    ensures Holds(Enqueued(q, a), a) <==> a.jobId !in Target(q, a.route) || Holds(q, a)
    ensures a.jobId in Target(q, a.route) ==> Enqueued(q, a) == q
  {
  }

  /**
   * A failed master job stays under its own id for a week. Replaying its dead letter in that time answers 200,
   * adds nothing, and removes the letter: the replay is lost.
   */
  lemma ReplayOfRetainedJobIsLost(q: Queues, m: Message, f: Failure, letter: string, cap: nat, other: NumberOf)
    requires ReadReplayAttempts(m, other) < cap
    requires JobIdOf(m) in q.master && letter in q.dlq && q.dlq[letter] == DeadLetter(m, f)
    ensures MasterShape(m) ==>
            && AdminStatus(q, letter, cap, other) == 200
            && AfterAdmin(q, letter, cap, other, true) == q.(dlq := q.dlq - {letter})
  {
    if MasterShape(m) {
      assert DeadLetter(m, f).(target := None) == DeadLetter(m, f);
      AdminMasterRoundTrip(m, f, None, cap, other);
      EnqueuedHolds(q, AdminReplay(q.dlq[letter], cap, other).add);
    }
  }

  /**
   * The answer to a replay request: 404 exactly without the letter, 400 exactly when the letter is
   * at the cap or names no work that can be rebuilt, and 200 otherwise; only an accepted one whose
   * removal works takes the letter out, and no other letter ever goes.
   */
  lemma AdminAnswersExactly(q: Queues, letter: string, cap: nat, other: NumberOf, removed: bool)
    ensures var status := AdminStatus(q, letter, cap, other);
            && (status == 404 <==> letter !in q.dlq)
            && (status == 400 <==>
                letter in q.dlq && (ReadReplayAttempts(q.dlq[letter], other) >= cap ||
                                    !Replayable(q.dlq[letter], AdminTarget(q.dlq[letter]))))
            && (status == 200 <==> status != 404 && status != 400)
            && AfterAdmin(q, letter, cap, other, removed).dlq ==
               if status == 200 && removed then q.dlq - {letter} else q.dlq
  {
    if letter in q.dlq { AdminDecidesExactly(q.dlq[letter], cap, other); }
  }

  /** A dead step child whose letter was given the target "child" is back on the child queue, and its letter gone. */
  lemma AdminReplayQueuesChild(q: Queues, m: Message, step: string, percent: real, f: Failure, letter: string,
                               cap: nat, other: NumberOf)
    requires ValidCore(m) && step in {"prepare", "persist_stub_result"}
    requires ReadReplayAttempts(StepChild(m, step, percent, other), other) < cap
    requires letter in q.dlq && q.dlq[letter] == Targeted(DeadLetter(StepChild(m, step, percent, other), f), "child")
    requires JobIdOf(m) + ":" + step !in q.child
    ensures var c := StepChild(m, step, percent, other);
            AfterAdmin(q, letter, cap, other, true) ==
            q.(child := q.child[JobIdOf(m) + ":" + step :=
                                  c.(replayAttempts := Count(ReadReplayAttempts(c, other) + 1))],
               dlq := q.dlq - {letter})
  {
    AdminChildRoundTrip(m, step, percent, f, cap, other);
  }

  function EnqueuedAll(q: Queues, adds: seq<Addition>): Queues
    decreases |adds|
  {
    if adds == [] then q else EnqueuedAll(Enqueued(q, adds[0]), adds[1..])
  }

  /** What the child queue keeps under an id. */
  function KeptUnder(q: Queues, id: string): Option<Message> { if id in q.child then Some(q.child[id]) else None }

  lemma {:induction false} OthersLeave(q: Queues, adds: seq<Addition>, id: string)
    requires forall i :: 0 <= i < |adds| ==> adds[i].jobId != id
    ensures KeptUnder(EnqueuedAll(q, adds), id) == KeptUnder(q, id)
    decreases |adds|
  {
    if adds != [] {
      assert adds[0].jobId != id;
      OthersLeave(Enqueued(q, adds[0]), adds[1..], id);
    }
  }

  lemma SliceIdDiffers(job: string, step: string, rest: string)
    requires step != "" && step[0] == 'p'
    ensures job + ":fanout-all:" + rest != job + ":" + step
  {
    var a, b := job + ":fanout-all:" + rest, job + ":" + step;
    assert ":fanout-all:"[1] == 'f' && |":fanout-all:"| == 12;
    assert |a| > |job| + 1 && a[|job| + 1] == 'f';
    assert b[|job| + 1] == step[0];
  }

  lemma {:induction false} SlicesElsewhere(m: Message, parent: string, types: seq<string>, clock: string -> string,
                                           other: NumberOf, step: string, i: nat)
    requires step != "" && step[0] == 'p' && i < |types|
    ensures Slices(m, parent, types, clock, other)[i].jobId != JobIdOf(m) + ":" + step
  {
    if i > 0 {
      SlicesElsewhere(m, parent, types[1..], clock, other, step, i - 1);
    } else {
      var tail := types[0] + ":" + (types[0] + ":" + clock(types[0]));
      assert JobIdOf(m) + ":fanout-all:" + types[0] + ":" + (types[0] + ":" + clock(types[0])) ==
             JobIdOf(m) + ":fanout-all:" + tail;
      SliceIdDiffers(JobIdOf(m), step, tail);
    }
  }

  /** The job id of a master message's persist child, the same in every attempt. */
  function PersistId(m: Message): string { JobIdOf(m) + ":" + "persist_stub_result" }

  lemma StepIdsDiffer(m: Message)
    ensures JobIdOf(m) + ":persist_stub_result" == PersistId(m) && JobIdOf(m) + ":prepare" != PersistId(m)
  {
    assert |":prepare"| == 8 && |":persist_stub_result"| == 20;
    assert JobIdOf(m) + ":persist_stub_result" == PersistId(m);
  }

  lemma PersistIsSecond(m: Message, parent: string, fanoutAll: bool, clock: string -> string, other: NumberOf)
    ensures var adds := Children(m, parent, fanoutAll, clock, other);
            |adds| >= 2 && adds[1].jobId == PersistId(m) && adds[1].route == ToChild && adds[0].jobId != PersistId(m)
    ensures forall i :: 2 <= i < |Children(m, parent, fanoutAll, clock, other)| ==>
              Children(m, parent, fanoutAll, clock, other)[i].jobId != PersistId(m)
  {
    var adds := Children(m, parent, fanoutAll, clock, other);
    StepIdsDiffer(m);
    forall i | 2 <= i < |adds| ensures adds[i].jobId != PersistId(m) {
      SlicesElsewhere(m, parent, ChildJobTypes(), clock, other, "persist_stub_result", i - 2);
    }
  }

  /** The one add that counts among many. */
  lemma OneAddCounts(q: Queues, adds: seq<Addition>, id: string)
    requires |adds| >= 2 && adds[0].jobId != id && adds[1].jobId == id && adds[1].route == ToChild
    requires forall i :: 2 <= i < |adds| ==> adds[i].jobId != id
    ensures KeptUnder(EnqueuedAll(q, adds), id) == if id in q.child then Some(q.child[id]) else Some(adds[1].data)
  {
    var q1 := Enqueued(q, adds[0]);
    var q2 := Enqueued(q1, adds[1]);
    assert adds[1..][0] == adds[1] && adds[1..][1..] == adds[2..];
    OthersLeave(q2, adds[2..], id);
    assert EnqueuedAll(q, adds) == EnqueuedAll(q2, adds[2..]);
  }

  /**
   * A master attempt queues its persist child if and only if the child queue keeps nothing under that child's id, or
   * this very message; whatever else it keeps there stays as it is. Prepare steps and slices have other ids.
   */
  lemma RerunQueuesPersistExactly(q: Queues, m: Message, parent: string, fanoutAll: bool, clock: string -> string,
                                  other: NumberOf)
    ensures var adds := Children(m, parent, fanoutAll, clock, other);
            var t := EnqueuedAll(q, adds);
            && (KeptUnder(t, PersistId(m)) == Some(adds[1].data) <==>
                KeptUnder(q, PersistId(m)) in {None, Some(adds[1].data)})
            && (KeptUnder(q, PersistId(m)).Some? ==> KeptUnder(t, PersistId(m)) == KeptUnder(q, PersistId(m)))
  {
    PersistIsSecond(m, parent, fanoutAll, clock, other);
    OneAddCounts(q, Children(m, parent, fanoutAll, clock, other), PersistId(m));
  }

  class QueueHandles {
    var master: Jobs
    var child: Jobs
    var dlq: Jobs

    ghost function Value(): Queues reads this { Queues(master, child, dlq) }

    constructor () ensures Value() == Queues(map[], map[], map[]) { master, child, dlq := map[], map[], map[]; }

    method Add(a: Addition)
      modifies this
      ensures Value() == Enqueued(old(Value()), a)
    {
      if a.route == ToChild {
        if a.jobId !in child { child := child[a.jobId := a.data]; }
      } else {
        if a.jobId !in master { master := master[a.jobId := a.data]; }
      }
    }

    /** processRetryJob; the outcome InvalidPayload is the thrown error. */
    method ProcessRetryJob(raw: Message, names: Names, cap: nat, other: NumberOf) returns (outcome: Replay)
      modifies this
      ensures outcome == ProcessRetry(raw, names, cap, other)
      ensures Value() == AfterReplay(old(Value()), outcome)
    {
      outcome := DecideRetry(raw, names, cap, other);
      if outcome.ReAdd? { Add(outcome.add); }
    }

    /** The retry-replay handler; removing the letter is best effort. */
    method RetryReplay(letter: string, cap: nat, other: NumberOf, removeWorks: bool) returns (status: nat)
      modifies this
      ensures status == AdminStatus(old(Value()), letter, cap, other)
      ensures Value() == AfterAdmin(old(Value()), letter, cap, other, removeWorks)
    {
      if letter !in dlq { return 404; }
      var decision := AdminReplay(dlq[letter], cap, other);
      if !decision.ReAdd? { return 400; }
      Add(decision.add);
      if removeWorks { dlq := dlq - {letter}; }
      status := 200;
    }
  }

  method DecideRetry(raw: Message, names: Names, cap: nat, other: NumberOf) returns (outcome: Replay)
    ensures outcome == ProcessRetry(raw, names, cap, other)
  {
    var base := StripForTargetQueue(raw);
    outcome := Retry(ResolveRetryTarget(raw, names), base, ReadReplayAttempts(raw, other), cap);
  }

  method Retry(target: Route, base: Message, attemptCount: nat, cap: nat) returns (outcome: Replay)
    ensures outcome == RetryTo(target, base, attemptCount, cap)
  {
    if cap > 0 && attemptCount >= cap { return AtCap; }
    if target == ToChild {
      outcome := ChildReplay(base, attemptCount + 1);
    } else {
      outcome := MasterReplay(base, attemptCount + 1);
    }
  }

  /** What both branches copy into the message they add. */
  method CommonData(base: Message, nextReplay: nat) returns (data: Message)
    ensures data == Core(base).(traceparent := W3c(base.traceparent), tracestate := W3c(base.tracestate),
                                replayAttempts := Count(nextReplay))
  {
    data := Empty().(scrapeJobId := base.scrapeJobId, kind := base.kind, correlationId := base.correlationId,
                     traceparent := W3c(base.traceparent), tracestate := W3c(base.tracestate),
                     replayAttempts := Some(JNum(nextReplay as real)));
    if IsNonEmptyText(base.requestId) { data := data.(requestId := base.requestId); }
  }

  method MasterReplay(base: Message, nextReplay: nat) returns (replay: Replay)
    ensures replay == ReplayToMaster(base, W3c(base.traceparent), W3c(base.tracestate), nextReplay)
  {
    if !ValidCore(base) { return InvalidPayload; }
    var data := CommonData(base, nextReplay);
    replay := ReAdd(Addition(ToMaster, base.scrapeJobId.value.s, data));
  }

  method ChildReplay(base: Message, nextReplay: nat) returns (replay: Replay)
    ensures replay == ReplayToChild(base, W3c(base.traceparent), W3c(base.tracestate), RetryType(base), nextReplay)
  {
    if !ValidCore(base) || !IsText(base.step) { return InvalidPayload; }
    var data := CommonData(base, nextReplay);
    var step := base.step.value.s;
    var known := IsText(base.jobType) && base.jobType.value.s in ChildJobTypes();
    data := data.(step := base.step, jobType := if known then base.jobType else ChildIngestTypeForStep(step));
    if base.progressPercent.Some? && base.progressPercent.value.JNum? {
      data := data.(progressPercent := base.progressPercent);
    }
    replay := ReAdd(Addition(ToChild, base.scrapeJobId.value.s + ":" + step, data));
  }
}
