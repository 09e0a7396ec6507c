/**
 * The messages of the ingest queues and what the two counted replay paths make of them: the retry worker of
 * apps/worker-ingest/src/index.js and the admin endpoint of apps/api-express/src/routes/adminQueues.js.
 */
module JobMessages {
  import opened Basics
  import opened Strings
  import opened Json

  type Field = Option<Json>

  /** A message: the properties the code mentions, None where absent, and all other properties. */
  datatype Message = Message(
    scrapeJobId: Field, kind: Field, correlationId: Field, requestId: Field, step: Field, progressPercent: Field,
    jobType: Field, traceparent: Field, tracestate: Field, replayAttempts: Field, queuePriority: Field,
    parentJobId: Field, sliceKey: Field, failedReason: Field, dlqMeta: Field, target: Field, extra: Object)

  function Empty(): Message {
    Message(None, None, None, None, None, None, None, None, None, None, None, None, None, None, None, None, map[])
  }

  /** Number(v) for the values that are not plain numbers, booleans, null or undefined. */
  type NumberOf = Json -> Option<real>

  datatype Names = Names(master: string, child: string)

  predicate IsText(f: Field) { f.Some? && f.value.JStr? }

  predicate IsNonEmptyText(f: Field) { IsText(f) && f.value.s != "" }

  function ToNumber(f: Field, other: NumberOf): Option<real> {
    match f
    case None => None
    case Some(JNull) => Some(0.0)
    case Some(JBool(b)) => Some(if b then 1.0 else 0.0)
    case Some(JNum(n)) => Some(n)
    case Some(x) => other(x)
  }

  // ------------------------------------------------------------------ reading and stripping

  function CountIn(f: Field, other: NumberOf): Option<nat> {
    var n := ToNumber(f, other);
    if n.Some? && n.value >= 0.0 then Some(n.value.Floor) else None
  }

  function Meta(m: Message, key: string): Field { Get(AsRecord(m.dlqMeta), key) }

  /** The replay counter: the message's own, else the one an operator left in dlqMeta, else 0. */
  function ReadReplayAttempts(m: Message, other: NumberOf): nat {
    var own, meta := CountIn(m.replayAttempts, other), CountIn(Meta(m, "replayAttempts"), other);
    if own.Some? then own.value else if meta.Some? then meta.value else 0
  }

  /** A usable count: a number that is not negative. */
  predicate Counts(f: Field) { f.Some? && f.value.JNum? && f.value.n >= 0.0 }

  /**
   * Where the counter is read: a message's own number wins over the one in its letter's envelope,
   * an explicit null reads as zero, and without either the count is zero.
   */
  lemma CounterExactly(m: Message, other: NumberOf)
    ensures Counts(m.replayAttempts) ==>
              ReadReplayAttempts(m, other) as real <= m.replayAttempts.value.n
                                                   < ReadReplayAttempts(m, other) as real + 1.0
    ensures m.replayAttempts == Some(JNull) ==> ReadReplayAttempts(m, other) == 0
    ensures m.replayAttempts.None? && Counts(Meta(m, "replayAttempts")) ==>
              ReadReplayAttempts(m, other) as real <= Meta(m, "replayAttempts").value.n
                                                   < ReadReplayAttempts(m, other) as real + 1.0
    ensures m.replayAttempts.None? && Meta(m, "replayAttempts").None? ==> ReadReplayAttempts(m, other) == 0
  {
  }

  function StripForTargetQueue(m: Message): Message { m.(failedReason := None, dlqMeta := None, target := None) }

  /** Nothing of a failure is left. */
  predicate Clean(m: Message) { m.failedReason.None? && m.dlqMeta.None? && m.target.None? }

  datatype Route = ToMaster | ToChild

  function ResolveRetryTarget(m: Message, names: Names): Route {
    if m.target == Some(JStr("master")) then ToMaster
    else if m.target == Some(JStr("child")) then ToChild
    else if Meta(m, "sourceQueue") == Some(JStr(names.child)) then ToChild
    else ToMaster
  }

  /** The admin endpoint looks at target alone. */
  function AdminTarget(m: Message): Route { if m.target == Some(JStr("child")) then ToChild else ToMaster }

  predicate IsValidKind(f: Field) {
    IsText(f) &&
    f.value.s in {"khanan_date_range", "vehicle_permit_snapshot", "vehicle_insurance_snapshot",
                  "vehicle_fitness_snapshot", "vehicle_registration_snapshot", "consigner_digest",
                  "trip_intelligence_rollup", "raw_challan_backfill"}
  }

  function ChildJobTypes(): seq<string> {
    ["consigner", "vehicle", "challan_detail", "permit", "insurance", "fitness", "registration", "trip_summary",
     "analytics_rollup", "validation", "dedupe"]
  }

  function ChildIngestTypeForStep(step: string): Field {
    if step == "prepare" then Some(JStr("validation"))
    else if step == "persist_stub_result" then Some(JStr("dedupe"))
    else None
  }

  /** One trace field, trimmed; dropped when blank or not text. */
  function W3c(f: Field): Field { if IsText(f) && Trim(f.value.s) != "" then Some(JStr(Trim(f.value.s))) else None }

  lemma W3cTwice(f: Field)
    ensures W3c(W3c(f)) == W3c(f)
  {
    if IsText(f) { TrimTwice(f.value.s); }
  }

  /** A trace field is passed on exactly when it is text that is not blank, without the white space around it. */
  lemma W3cExactly(f: Field)
    ensures W3c(f).Some? <==> IsText(f) && Given(Some(f.value.s))
    ensures W3c(f).Some? ==> IsText(f) && IsText(W3c(f)) && TrimmedFrom(W3c(f).value.s, f.value.s)
  {
    if IsText(f) { GivenExactly(Some(f.value.s)); }
  }

  function NonEmpty(f: Field): Field { if IsNonEmptyText(f) then f else None }

  // ------------------------------------------------------------------ replaying

  datatype Addition = Addition(route: Route, jobId: string, data: Message)

  datatype Replay = ReAdd(add: Addition) | AtCap | InvalidPayload

  predicate ValidCore(m: Message) { IsText(m.scrapeJobId) && IsValidKind(m.kind) && IsText(m.correlationId) }

  function Core(m: Message): Message {
    Empty().(scrapeJobId := m.scrapeJobId, kind := m.kind, correlationId := m.correlationId,
             requestId := NonEmpty(m.requestId))
  }

  function Count(n: nat): Field { Some(JNum(n as real)) }

  function Numeric(f: Field): Field { if f.Some? && f.value.JNum? then f else None }

  /** Both paths build the message they add from these fields alone. */
  function ReplayToChild(m: Message, parent: Field, state: Field, jobType: Field, n: nat): Replay {
    if !ValidCore(m) || !IsText(m.step) then InvalidPayload
    else ReAdd(Addition(ToChild, m.scrapeJobId.value.s + ":" + m.step.value.s,
                        Core(m).(step := m.step, progressPercent := Numeric(m.progressPercent), jobType := jobType,
                                 traceparent := parent, tracestate := state, replayAttempts := Count(n))))
  }

  function ReplayToMaster(m: Message, parent: Field, state: Field, n: nat): Replay {
    if !ValidCore(m) then InvalidPayload
    else ReAdd(Addition(ToMaster, m.scrapeJobId.value.s,
                        Core(m).(traceparent := parent, tracestate := state, replayAttempts := Count(n))))
  }

  function TypeOfStep(m: Message): Field { if IsText(m.step) then ChildIngestTypeForStep(m.step.value.s) else None }

  /** The type of a replayed child: kept when known, else by its step. */
  function RetryType(m: Message): Field {
    if IsText(m.jobType) && m.jobType.value.s in ChildJobTypes() then m.jobType else TypeOfStep(m)
  }

  function RetryTo(target: Route, m: Message, n: nat, cap: nat): Replay {
    if cap > 0 && n >= cap then AtCap
    else if target == ToChild
    then ReplayToChild(m, W3c(m.traceparent), W3c(m.tracestate), RetryType(m), n + 1)
    else ReplayToMaster(m, W3c(m.traceparent), W3c(m.tracestate), n + 1)
  }

  /** processRetryJob. */
  function ProcessRetry(raw: Message, names: Names, cap: nat, other: NumberOf): Replay {
    RetryTo(ResolveRetryTarget(raw, names), StripForTargetQueue(raw), ReadReplayAttempts(raw, other), cap)
  }

  /** The admin path keeps any type that is not empty, and text trace fields as they are. */
  function AdminType(m: Message): Field { if IsNonEmptyText(m.jobType) then m.jobType else TypeOfStep(m) }

  function TextOnly(f: Field): Field { if IsText(f) then f else None }

  /** The decision of POST /retry-replay on a dead letter. */
  function AdminReplay(raw: Message, cap: nat, other: NumberOf): Replay {
    var n := ReadReplayAttempts(raw, other);
    var m := StripForTargetQueue(raw);
    if n >= cap then AtCap
    else if AdminTarget(raw) == ToChild
    then ReplayToChild(m, TextOnly(m.traceparent), TextOnly(m.tracestate), AdminType(m), n + 1)
    else ReplayToMaster(m, TextOnly(m.traceparent), TextOnly(m.tracestate), n + 1)
  }

  // ------------------------------------------------------------------ dead letters and children

  /** What recordTerminalFailureOnDlq knows of a failed delivery. */
  datatype Failure = Failure(reason: string, queue: string, jobId: string, jobName: string, at: string, made: real,
                             max: real)

  function MetaOf(f: Failure): Object {
    map["sourceQueue" := JStr(f.queue), "sourceJobId" := JStr(f.jobId), "sourceJobName" := JStr(f.jobName),
        "failedAt" := JStr(f.at), "attemptsMade" := JNum(f.made), "maxAttempts" := JNum(f.max)]
  }

  function DeadLetter(m: Message, f: Failure): Message {
    m.(failedReason := Some(JStr(f.reason)), dlqMeta := Some(JObj(MetaOf(f))))
  }

  /** The counter a master hands to its children: only a positive one. */
  function ReplayFromMaster(m: Message, other: NumberOf): Field {
    var n := ToNumber(m.replayAttempts, other);
    if n.Some? && n.value > 0.0 then Some(JNum(n.value)) else None
  }

  function Inherited(m: Message, other: NumberOf): Message {
    Core(m).(replayAttempts := ReplayFromMaster(m, other), traceparent := W3c(m.traceparent),
             tracestate := W3c(m.tracestate))
  }

  function StepChild(m: Message, step: string, percent: real, other: NumberOf): Message {
    Inherited(m, other).(step := Some(JStr(step)), progressPercent := Some(JNum(percent)),
                         jobType := ChildIngestTypeForStep(step))
  }

  function SliceChild(m: Message, parent: string, ingestType: string, sliceKey: string, other: NumberOf): Message {
    Inherited(m, other).(parentJobId := Some(JStr(parent)), step := Some(JStr("multi_type_slice")),
                         progressPercent := Some(JNum(52.0)),
                         jobType := Some(JStr(ingestType)), sliceKey := Some(JStr(sliceKey)))
  }

  function JobIdOf(m: Message): string { if IsText(m.scrapeJobId) then m.scrapeJobId.value.s else "" }

  /** Slices are told apart by the clock. */
  function Slices(m: Message, parent: string, types: seq<string>, clock: string -> string,
                  other: NumberOf): (adds: seq<Addition>)
    ensures |adds| == |types|
  {
    if types == [] then []
    else
      var key := types[0] + ":" + clock(types[0]);
      [Addition(ToChild, JobIdOf(m) + ":fanout-all:" + types[0] + ":" + key,
                SliceChild(m, parent, types[0], key, other))]
      + Slices(m, parent, types[1..], clock, other)
  }

  /** The adds of a master attempt that claims its row: the two steps, then every slice when that is switched on. */
  function Children(m: Message, parent: string, fanoutAll: bool, clock: string -> string,
                    other: NumberOf): (adds: seq<Addition>)
    ensures |adds| <= 13
  {
    [Addition(ToChild, JobIdOf(m) + ":prepare", StepChild(m, "prepare", 50.0, other)),
     Addition(ToChild, JobIdOf(m) + ":persist_stub_result", StepChild(m, "persist_stub_result", 90.0, other))]
    + if fanoutAll then Slices(m, parent, ChildJobTypes(), clock, other) else []
  }

  // ------------------------------------------------------------------ the round trip

  /** A letter remembers its queue and nothing of a counter. */
  lemma MetaReads(f: Failure)
    ensures Get(MetaOf(f), "sourceQueue") == Some(JStr(f.queue)) && Get(MetaOf(f), "replayAttempts") == None
  {
    assert |"sourceQueue"| == 11 && |"sourceJobId"| == 11 && |"sourceJobName"| == 13 && |"failedAt"| == 8;
    assert |"attemptsMade"| == 12 && |"maxAttempts"| == 11 && |"replayAttempts"| == 14;
    assert "sourceQueue"[6] == 'Q' && "sourceJobId"[6] == 'J' && "sourceQueue"[0] == 's' && "maxAttempts"[0] == 'm';
  }

  /** A letter is the message it was, with the reason of its failure and where and when it failed. */
  lemma LetterExactly(m: Message, f: Failure)
    ensures var letter := DeadLetter(m, f);
            && letter == m.(failedReason := Some(JStr(f.reason)), dlqMeta := letter.dlqMeta)
            && Meta(letter, "sourceQueue") == Some(JStr(f.queue)) && Meta(letter, "sourceJobId") == Some(JStr(f.jobId))
            && Meta(letter, "sourceJobName") == Some(JStr(f.jobName)) && Meta(letter, "failedAt") == Some(JStr(f.at))
            && Meta(letter, "attemptsMade") == Some(JNum(f.made)) && Meta(letter, "maxAttempts") == Some(JNum(f.max))
  {
    assert |"sourceQueue"| == 11 && |"sourceJobId"| == 11 && |"sourceJobName"| == 13 && |"failedAt"| == 8;
    assert |"attemptsMade"| == 12 && |"maxAttempts"| == 11;
    assert "sourceQueue"[6] == 'Q' && "sourceJobId"[6] == 'J' && "sourceQueue"[0] == 's' && "sourceJobId"[0] == 's' &&
           "maxAttempts"[0] == 'm';
  }

  /** Dead-lettering a message that is no letter itself neither adds to nor resets its counter. */
  lemma DeadLetterKeepsCount(m: Message, f: Failure, other: NumberOf)
    requires m.dlqMeta.None?
    ensures ReadReplayAttempts(DeadLetter(m, f), other) == ReadReplayAttempts(m, other)
    ensures StripForTargetQueue(DeadLetter(m, f)) == StripForTargetQueue(m)
    ensures Meta(DeadLetter(m, f), "sourceQueue") == Some(JStr(f.queue))
  {
    MetaReads(f);
  }

  lemma StepTypeIsKnown(step: string)
    requires step in {"prepare", "persist_stub_result"}
    ensures var t := ChildIngestTypeForStep(step); IsText(t) && t.value.s in ChildJobTypes()
  {
    assert ChildJobTypes()[9] == "validation" && ChildJobTypes()[10] == "dedupe";
  }

  /** What the retry worker sees of a letter written for a clean message. */
  ghost predicate LetterOf(letter: Message, m: Message, route: Route, names: Names, other: NumberOf) {
    && StripForTargetQueue(letter) == m && ResolveRetryTarget(letter, names) == route
    && ReadReplayAttempts(letter, other) == ReadReplayAttempts(m, other)
  }

  lemma DeadLetterIsLetter(m: Message, f: Failure, names: Names, other: NumberOf)
    requires Clean(m)
    ensures LetterOf(DeadLetter(m, f), m, if f.queue == names.child then ToChild else ToMaster, names, other)
  {
    DeadLetterKeepsCount(m, f, other);
    assert StripForTargetQueue(m) == m;
    var letter := DeadLetter(m, f);
    assert letter.target == None && Meta(letter, "sourceQueue") == Some(JStr(f.queue));
  }

  lemma LetterReplay(letter: Message, m: Message, route: Route, names: Names, cap: nat, other: NumberOf)
    requires LetterOf(letter, m, route, names, other) && ReadReplayAttempts(m, other) < cap
    ensures var n := ReadReplayAttempts(m, other) + 1;
            ProcessRetry(letter, names, cap, other) ==
            if route == ToChild then ReplayToChild(m, W3c(m.traceparent), W3c(m.tracestate), RetryType(m), n)
            else ReplayToMaster(m, W3c(m.traceparent), W3c(m.tracestate), n)
  {
  }

  /** The fields a replayed child is rebuilt from are all of its own, bar the two that name a slice. */
  ghost predicate ChildShape(c: Message) {
    && IsText(c.step) && Clean(c) && c.queuePriority.None? && c.extra == map[]
    && W3c(c.traceparent) == c.traceparent && W3c(c.tracestate) == c.tracestate
    && NonEmpty(c.requestId) == c.requestId && Numeric(c.progressPercent) == c.progressPercent
  }

  lemma ChildIsRebuilt(c: Message, n: nat)
    requires ChildShape(c) && ValidCore(c) && RetryType(c) == c.jobType
    ensures ReplayToChild(c, W3c(c.traceparent), W3c(c.tracestate), RetryType(c), n) ==
            ReAdd(Addition(ToChild, JobIdOf(c) + ":" + c.step.value.s,
                           c.(parentJobId := None, sliceKey := None, replayAttempts := Count(n))))
  {
  }

  lemma CoreKeepsShape(m: Message, c: Message)
    requires ValidCore(m) && c.scrapeJobId == m.scrapeJobId && c.kind == m.kind && c.correlationId == m.correlationId
    ensures ValidCore(c)
  {
  }

  lemma KnownType(c: Message)
    requires IsText(c.jobType) && c.jobType.value.s in ChildJobTypes()
    ensures RetryType(c) == c.jobType
  {
  }

  lemma InheritedShape(m: Message, c: Message, other: NumberOf)
    requires c == Inherited(m, other).(parentJobId := c.parentJobId, step := c.step,
                                       progressPercent := c.progressPercent,
                                       jobType := c.jobType, sliceKey := c.sliceKey)
    requires IsText(c.step) && Numeric(c.progressPercent) == c.progressPercent
    ensures ChildShape(c) && c.scrapeJobId == m.scrapeJobId && c.kind == m.kind && c.correlationId == m.correlationId
  {
    W3cTwice(m.traceparent);
    W3cTwice(m.tracestate);
  }

  /** A clean child letter of a known type is replayed as the child it was, bar parent and slice. */
  lemma ChildLetterReplay(m: Message, c: Message, f: Failure, names: Names, cap: nat, other: NumberOf)
    requires ValidCore(m) && c.scrapeJobId == m.scrapeJobId && c.kind == m.kind && c.correlationId == m.correlationId
    requires ChildShape(c) && RetryType(c) == c.jobType && f.queue == names.child && ReadReplayAttempts(c, other) < cap
    ensures ProcessRetry(DeadLetter(c, f), names, cap, other) ==
            ReAdd(Addition(ToChild, JobIdOf(m) + ":" + c.step.value.s,
                           c.(parentJobId := None, sliceKey := None,
                              replayAttempts := Count(ReadReplayAttempts(c, other) + 1))))
  {
    CoreKeepsShape(m, c);
    DeadLetterIsLetter(c, f, names, other);
    LetterReplay(DeadLetter(c, f), c, ToChild, names, cap, other);
    ChildIsRebuilt(c, ReadReplayAttempts(c, other) + 1);
  }

  /**
   * Dead-letter round trip of a step child: failing for good and passing through the retry worker re-adds the very
   * same child, with the counter raised by one and no trace of the failure.
   */
  lemma ChildRoundTrip(m: Message, step: string, percent: real, f: Failure, names: Names, cap: nat, other: NumberOf)
    requires ValidCore(m) && step in {"prepare", "persist_stub_result"} && f.queue == names.child
    requires ReadReplayAttempts(StepChild(m, step, percent, other), other) < cap
    ensures var c := StepChild(m, step, percent, other);
            ProcessRetry(DeadLetter(c, f), names, cap, other) ==
            ReAdd(Addition(ToChild, JobIdOf(m) + ":" + step,
                           c.(replayAttempts := Count(ReadReplayAttempts(c, other) + 1))))
  {
    var c := StepChild(m, step, percent, other);
    StepIsChild(m, step, percent, c, other);
    ChildLetterReplay(m, c, f, names, cap, other);
  }

  /** A message as the API or a replay puts it on the master queue. */
  predicate MasterShape(m: Message) {
    && ValidCore(m) && NonEmpty(m.requestId) == m.requestId && W3c(m.traceparent) == m.traceparent &&
       W3c(m.tracestate) == m.tracestate
    && m == Core(m).(traceparent := m.traceparent, tracestate := m.tracestate, replayAttempts := m.replayAttempts,
                     queuePriority := m.queuePriority)
  }

  /** The same for a master message, except that its queue priority is gone. */
  lemma MasterRoundTrip(m: Message, f: Failure, names: Names, cap: nat, other: NumberOf)
    requires MasterShape(m) && f.queue == names.master && names.master != names.child
    requires ReadReplayAttempts(m, other) < cap
    ensures ProcessRetry(DeadLetter(m, f), names, cap, other) ==
            ReAdd(Addition(ToMaster, JobIdOf(m),
                           m.(queuePriority := None, replayAttempts := Count(ReadReplayAttempts(m, other) + 1))))
  {
    DeadLetterIsLetter(m, f, names, other);
    LetterReplay(DeadLetter(m, f), m, ToMaster, names, cap, other);
  }

  lemma SliceIsChild(m: Message, parent: string, t: string, key: string, c: Message, other: NumberOf)
    requires c == SliceChild(m, parent, t, key, other) && t in ChildJobTypes()
    ensures ChildShape(c) && c.scrapeJobId == m.scrapeJobId && c.kind == m.kind && c.correlationId == m.correlationId
    ensures RetryType(c) == c.jobType
  {
    InheritedShape(m, c, other);
    KnownType(c);
  }

  lemma StepIsChild(m: Message, step: string, percent: real, c: Message, other: NumberOf)
    requires c == StepChild(m, step, percent, other) && step in {"prepare", "persist_stub_result"}
    ensures ChildShape(c) && c.scrapeJobId == m.scrapeJobId && c.kind == m.kind && c.correlationId == m.correlationId
    ensures RetryType(c) == c.jobType
  {
    InheritedShape(m, c, other);
    StepTypeIsKnown(step);
    KnownType(c);
  }

  /** A fan-out slice comes back without its slice: parent and key are gone, and its job id no longer names its type. */
  lemma SliceLosesItsKey(m: Message, parent: string, t: string, key: string, f: Failure, names: Names, cap: nat,
                         other: NumberOf)
    requires ValidCore(m) && t in ChildJobTypes() && f.queue == names.child
    requires ReadReplayAttempts(SliceChild(m, parent, t, key, other), other) < cap
    ensures var c := SliceChild(m, parent, t, key, other);
            ProcessRetry(DeadLetter(c, f), names, cap, other) ==
            ReAdd(Addition(ToChild, JobIdOf(m) + ":" + "multi_type_slice",
                           c.(parentJobId := None, sliceKey := None,
                              replayAttempts := Count(ReadReplayAttempts(c, other) + 1))))
  {
    var c := SliceChild(m, parent, t, key, other);
    SliceIsChild(m, parent, t, key, c, other);
    ChildLetterReplay(m, c, f, names, cap, other);
  }

  // ------------------------------------------------------------------ caps and routes

  /**
   * A replay raises the counter by exactly one, never past the cap (the retry worker takes 0 as no cap), and leaves
   * no failure data.
   */
  lemma ReplayCounts(raw: Message, names: Names, cap: nat, other: NumberOf)
    ensures var r := ProcessRetry(raw, names, cap, other);
            r.ReAdd? ==>
              && ReadReplayAttempts(r.add.data, other) == ReadReplayAttempts(raw, other) + 1
              && (cap > 0 ==> ReadReplayAttempts(r.add.data, other) <= cap)
              && Clean(r.add.data)
    ensures var r := AdminReplay(raw, cap, other);
            r.ReAdd? ==>
              && ReadReplayAttempts(r.add.data, other) == ReadReplayAttempts(raw, other) + 1 <= cap
              && Clean(r.add.data)
  {
    var n := ReadReplayAttempts(raw, other) + 1;
    assert (n as real).Floor == n;
    forall d: Message | d.replayAttempts == Count(n) ensures ReadReplayAttempts(d, other) == n {}
  }

  /**
   * The admin endpoint routes like the retry worker, as its documentation says, exactly when the message names its
   * target or does not come from the child queue.
   */
  lemma AdminRoutesLikeRetry(m: Message, names: Names)
    ensures AdminTarget(m) == ResolveRetryTarget(m, names) <==>
            m.target == Some(JStr("master")) || m.target == Some(JStr("child")) ||
              Meta(m, "sourceQueue") != Some(JStr(names.child))
  {
    assert "master"[0] == 'm' && "child"[0] == 'c';
  }

  /** A message the replay paths can rebuild: its core is valid, and for the child queue it names its step. */
  predicate Replayable(m: Message, route: Route) { ValidCore(m) && (route == ToChild ==> IsText(m.step)) }

  predicate IsNumber(f: Field) { f.Some? && f.value.JNum? }

  /** What every replay carries over: the job, its kind, its ids, and for a child its step and progress. */
  ghost predicate SameWork(data: Message, m: Message, route: Route) {
    && data.scrapeJobId == m.scrapeJobId && data.kind == m.kind && data.correlationId == m.correlationId
    && data.requestId == (if IsNonEmptyText(m.requestId) then m.requestId else None)
    && (route == ToChild ==> data.step == m.step)
    && (route == ToChild ==> data.progressPercent == if IsNumber(m.progressPercent) then m.progressPercent else None)
    && (route == ToMaster ==> data.step.None? && data.progressPercent.None? && data.jobType.None?)
    && data.queuePriority.None? && data.parentJobId.None? && data.sliceKey.None? && data.extra == map[]
  }

  /** The id under which the work of a message is queued. */
  predicate IdFor(id: string, m: Message, route: Route)
    requires Replayable(m, route)
  {
    id == if route == ToChild then m.scrapeJobId.value.s + ":" + m.step.value.s else m.scrapeJobId.value.s
  }

  /**
   * What the admin endpoint makes of any letter: it refuses at the cap, refuses what it cannot
   * rebuild, and else re-adds the letter's own work on the queue its target names, with text trace
   * fields and any non-empty type as they are.
   */
  lemma AdminDecidesExactly(raw: Message, cap: nat, other: NumberOf)
    ensures var r, n, route := AdminReplay(raw, cap, other), ReadReplayAttempts(raw, other), AdminTarget(raw);
            && (r == AtCap <==> n >= cap)
            && (r == InvalidPayload <==> n < cap && !Replayable(raw, route))
            && (r.ReAdd? ==>
                  && Replayable(raw, route) && r.add.route == route && IdFor(r.add.jobId, raw, route)
                  && SameWork(r.add.data, raw, route)
                  && r.add.data.traceparent == (if IsText(raw.traceparent) then raw.traceparent else None)
                  && r.add.data.tracestate == (if IsText(raw.tracestate) then raw.tracestate else None)
                  && (route == ToChild && IsNonEmptyText(raw.jobType) ==> r.add.data.jobType == raw.jobType))
    ensures AdminTarget(raw) == ToChild <==> raw.target == Some(JStr("child"))
  {
  }

  /** What the retry worker makes of any message: the same, with trace fields trimmed and only known types kept. */
  lemma RetryDecidesExactly(raw: Message, names: Names, cap: nat, other: NumberOf)
    ensures var r, n := ProcessRetry(raw, names, cap, other), ReadReplayAttempts(raw, other);
            var route := ResolveRetryTarget(raw, names);
            && (r == AtCap <==> 0 < cap <= n)
            && (r == InvalidPayload <==> !(0 < cap <= n) && !Replayable(raw, route))
            && (r.ReAdd? ==>
                  && Replayable(raw, route) && r.add.route == route && IdFor(r.add.jobId, raw, route)
                  && SameWork(r.add.data, raw, route)
                  && r.add.data.traceparent == W3c(raw.traceparent) && r.add.data.tracestate == W3c(raw.tracestate)
                  && (route == ToChild && IsText(raw.jobType) && raw.jobType.value.s in ChildJobTypes()
                      ==> r.add.data.jobType == raw.jobType))
  {
  }

  /** A dead letter to which an operator has given a target. */
  function Targeted(letter: Message, target: string): Message { letter.(target := Some(JStr(target))) }

  lemma TrimmedIsText(f: Field)
    requires W3c(f) == f
    ensures TextOnly(f) == f
  {
  }

  lemma StepTypeKept(m: Message, step: string, percent: real, other: NumberOf)
    requires step in {"prepare", "persist_stub_result"}
    ensures AdminType(StepChild(m, step, percent, other)) == ChildIngestTypeForStep(step)
  {
    StepTypeIsKnown(step);
    assert |"validation"| == 10 && |"dedupe"| == 6;
  }

  lemma AdminReadsChild(letter: Message, c: Message, cap: nat, other: NumberOf)
    requires StripForTargetQueue(letter) == c && letter.target == Some(JStr("child"))
    requires ReadReplayAttempts(letter, other) == ReadReplayAttempts(c, other) < cap
    ensures AdminReplay(letter, cap, other) ==
            ReplayToChild(c, TextOnly(c.traceparent), TextOnly(c.tracestate), AdminType(c),
                          ReadReplayAttempts(c, other) + 1)
  {
  }

  lemma AdminRebuildsChild(c: Message, n: nat)
    requires ChildShape(c) && ValidCore(c) && AdminType(c) == c.jobType
    ensures ReplayToChild(c, TextOnly(c.traceparent), TextOnly(c.tracestate), AdminType(c), n) ==
            ReAdd(Addition(ToChild, JobIdOf(c) + ":" + c.step.value.s,
                           c.(parentJobId := None, sliceKey := None, replayAttempts := Count(n))))
  {
    TrimmedIsText(c.traceparent);
    TrimmedIsText(c.tracestate);
  }

  /**
   * The admin round trip of a step child: a dead one whose letter was given the target "child" is
   * re-added as the very same child, under its own id, with the counter raised by one.
   */
  lemma AdminChildRoundTrip(m: Message, step: string, percent: real, f: Failure, cap: nat, other: NumberOf)
    requires ValidCore(m) && step in {"prepare", "persist_stub_result"}
    requires ReadReplayAttempts(StepChild(m, step, percent, other), other) < cap
    ensures var c := StepChild(m, step, percent, other);
            AdminReplay(Targeted(DeadLetter(c, f), "child"), cap, other) ==
            ReAdd(Addition(ToChild, JobIdOf(m) + ":" + step,
                           c.(replayAttempts := Count(ReadReplayAttempts(c, other) + 1))))
  {
    var c := StepChild(m, step, percent, other);
    StepIsChild(m, step, percent, c, other);
    StepTypeKept(m, step, percent, other);
    DeadLetterKeepsCount(c, f, other);
    CoreKeepsShape(m, c);
    AdminReadsChild(Targeted(DeadLetter(c, f), "child"), c, cap, other);
    AdminRebuildsChild(c, ReadReplayAttempts(c, other) + 1);
  }

  lemma AdminReadsMaster(letter: Message, m: Message, cap: nat, other: NumberOf)
    requires ValidCore(m) && StripForTargetQueue(letter) == m && letter.target != Some(JStr("child"))
    requires ReadReplayAttempts(letter, other) == ReadReplayAttempts(m, other) < cap
    ensures AdminReplay(letter, cap, other) ==
            ReplayToMaster(m, TextOnly(m.traceparent), TextOnly(m.tracestate), ReadReplayAttempts(m, other) + 1)
  {
  }

  /**
   * The admin round trip of a master message, whether its letter was given the target "master" or
   * none: every field comes back but its queue priority, with the counter raised by one.
   */
  lemma AdminMasterRoundTrip(m: Message, f: Failure, target: Field, cap: nat, other: NumberOf)
    requires MasterShape(m) && target != Some(JStr("child")) && ReadReplayAttempts(m, other) < cap
    ensures AdminReplay(DeadLetter(m, f).(target := target), cap, other) ==
            ReAdd(Addition(ToMaster, JobIdOf(m),
                           m.(queuePriority := None, replayAttempts := Count(ReadReplayAttempts(m, other) + 1))))
  {
    DeadLetterKeepsCount(m, f, other);
    TrimmedIsText(m.traceparent);
    TrimmedIsText(m.tracestate);
    AdminReadsMaster(DeadLetter(m, f).(target := target), m, cap, other);
  }

  /** But a step child that died untouched is replayed as a master run of its job, its step lost. */
  lemma AdminTurnsChildIntoMaster(m: Message, step: string, percent: real, f: Failure, cap: nat, other: NumberOf)
    requires ValidCore(m) && step in {"prepare", "persist_stub_result"}
    requires ReadReplayAttempts(StepChild(m, step, percent, other), other) < cap
    ensures var c := StepChild(m, step, percent, other);
            AdminReplay(DeadLetter(c, f), cap, other) ==
            ReAdd(Addition(ToMaster, JobIdOf(m),
                           c.(step := None, progressPercent := None, jobType := None,
                              replayAttempts := Count(ReadReplayAttempts(c, other) + 1))))
  {
    var c := StepChild(m, step, percent, other);
    StepIsChild(m, step, percent, c, other);
    CoreKeepsShape(m, c);
    DeadLetterKeepsCount(c, f, other);
    TrimmedIsText(c.traceparent);
    TrimmedIsText(c.tracestate);
    AdminReadsMaster(DeadLetter(c, f), c, cap, other);
  }

  // ------------------------------------------------------------------ children

  /** What a child takes from its master: the job, its kind and ids, trimmed trace fields, and a positive counter. */
  ghost predicate ChildOf(c: Message, m: Message) {
    && c.scrapeJobId == m.scrapeJobId && c.kind == m.kind && c.correlationId == m.correlationId
    && c.requestId == (if IsNonEmptyText(m.requestId) then m.requestId else None)
    && c.traceparent == W3c(m.traceparent) && c.tracestate == W3c(m.tracestate)
    && Clean(c) && c.queuePriority.None? && c.extra == map[]
  }

  lemma {:induction false} SliceAt(m: Message, parent: string, types: seq<string>, clock: string -> string,
                                   other: NumberOf, i: nat)
    requires i < |types|
    ensures var a := Slices(m, parent, types, clock, other)[i];
            && a.route == ToChild && ChildOf(a.data, m) && a.data.step == Some(JStr("multi_type_slice"))
            && a.data.jobType == Some(JStr(types[i])) && a.data.parentJobId == Some(JStr(parent))
            && a.jobId == JobIdOf(m) + ":fanout-all:" + types[i] + ":" + (types[i] + ":" + clock(types[i]))
  {
    if i > 0 { SliceAt(m, parent, types[1..], clock, other, i - 1); }
  }

  lemma StepChildExactly(m: Message, step: string, percent: real, other: NumberOf)
    ensures var c := StepChild(m, step, percent, other);
            && ChildOf(c, m) && c.step == Some(JStr(step)) && c.progressPercent == Some(JNum(percent))
            && (step == "prepare" ==> c.jobType == Some(JStr("validation")))
            && (step == "persist_stub_result" ==> c.jobType == Some(JStr("dedupe")))
  {
    assert |"prepare"| == 7 && |"persist_stub_result"| == 19;
  }

  /** The two step children of a master attempt, each under its own id. */
  ghost predicate StepAdds(adds: seq<Addition>, m: Message) {
    && |adds| >= 2 && adds[0].route == adds[1].route == ToChild && ChildOf(adds[0].data, m) && ChildOf(adds[1].data, m)
    && adds[0].jobId == JobIdOf(m) + ":prepare" && adds[1].jobId == JobIdOf(m) + ":persist_stub_result"
    && adds[0].data.step == Some(JStr("prepare")) && adds[1].data.step == Some(JStr("persist_stub_result"))
    && adds[0].data.progressPercent == Some(JNum(50.0)) && adds[1].data.progressPercent == Some(JNum(90.0))
    && adds[0].data.jobType == Some(JStr("validation")) && adds[1].data.jobType == Some(JStr("dedupe"))
  }

  /** A slice of the fan-out over the child types. */
  ghost predicate SliceAdd(a: Addition, m: Message, parent: string, t: string) {
    && a.route == ToChild && ChildOf(a.data, m) && a.data.step == Some(JStr("multi_type_slice"))
    && a.data.jobType == Some(JStr(t)) && a.data.parentJobId == Some(JStr(parent))
  }

  /**
   * A master attempt adds one child for each of its two steps, under the step's own id, and with
   * fan-out one slice for each of the eleven types, in order; all of them for its own job.
   */
  lemma ChildrenExactly(m: Message, parent: string, fanoutAll: bool, clock: string -> string, other: NumberOf)
    ensures var adds := Children(m, parent, fanoutAll, clock, other);
            && |adds| == (if fanoutAll then 13 else 2) && StepAdds(adds, m)
            && forall i :: 2 <= i < |adds| ==> SliceAdd(adds[i], m, parent, ChildJobTypes()[i - 2])
  {
    var adds := Children(m, parent, fanoutAll, clock, other);
    StepChildExactly(m, "prepare", 50.0, other);
    StepChildExactly(m, "persist_stub_result", 90.0, other);
    forall i | 2 <= i < |adds| ensures SliceAdd(adds[i], m, parent, ChildJobTypes()[i - 2]) {
      SliceAt(m, parent, ChildJobTypes(), clock, other, i - 2);
    }
  }

  /** Children count what their master counted. */
  lemma ChildrenKeepCount(m: Message, parent: string, fanoutAll: bool, clock: string -> string, other: NumberOf, i: nat)
    requires Clean(m) && i < |Children(m, parent, fanoutAll, clock, other)|
    ensures var c := Children(m, parent, fanoutAll, clock, other)[i];
            c.route == ToChild && Clean(c.data) && ReadReplayAttempts(c.data, other) == ReadReplayAttempts(m, other)
  {
    InheritedCount(m, other);
    if i >= 2 { SlicesKeepCount(m, parent, ChildJobTypes(), clock, other, i - 2); }
  }

  lemma InheritedCount(m: Message, other: NumberOf)
    requires Clean(m)
    ensures forall c: Message :: Clean(c) && c.replayAttempts == ReplayFromMaster(m, other) ==>
              ReadReplayAttempts(c, other) == ReadReplayAttempts(m, other)
  {
  }

  lemma {:induction false} SlicesKeepCount(m: Message, parent: string, types: seq<string>, clock: string -> string,
                                           other: NumberOf, i: nat)
    requires Clean(m) && i < |types|
    ensures var c := Slices(m, parent, types, clock, other)[i];
            c.route == ToChild && Clean(c.data) && ReadReplayAttempts(c.data, other) == ReadReplayAttempts(m, other)
  {
    InheritedCount(m, other);
    if i > 0 { SlicesKeepCount(m, parent, types[1..], clock, other, i - 1); }
  }
}
