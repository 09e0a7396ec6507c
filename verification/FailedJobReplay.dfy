/**
 * The replay of a stored failed job, which starts its counter over (apps/api-nest/src/failed-job-replay.service.ts).
 */
module FailedJobReplay {
  import opened Basics
  import opened Strings
  import opened Json
  import opened JobMessages
  import F = ReplayForest

  // ------------------------------------------------------------------ redaction

  const REDACTED := JStr("[redacted]")

  /** Nothing below the ninth level is kept; the test for sensitive names is a parameter. */
  function StripSensitiveDeep(v: Json, sensitive: string -> bool, depth: nat): (out: Object)
    decreases 9 - depth
  {
    if depth > 8 || !v.JObj? then map[]
    else map key | key in v.fields :: StrippedField(v.fields[key], key, sensitive, depth)
  }

  function StrippedField(v: Json, key: string, sensitive: string -> bool, depth: nat): Json
    requires depth <= 8
    decreases 9 - depth, 0
  {
    if sensitive(key) then REDACTED
    else if v.JObj? then JObj(StripSensitiveDeep(v, sensitive, depth + 1))
    else v
  }

  /** Every sensitive name, at any level the objects reach, carries the marker. */
  ghost predicate Redacted(o: Object, sensitive: string -> bool, levels: nat)
    decreases levels
  {
    forall key :: key in o ==>
      && (sensitive(key) ==> o[key] == REDACTED)
      && (!sensitive(key) && o[key].JObj? && levels > 0 ==> Redacted(o[key].fields, sensitive, levels - 1))
  }

  lemma {:induction false} StripRedacts(v: Json, sensitive: string -> bool, depth: nat, levels: nat)
    ensures Redacted(StripSensitiveDeep(v, sensitive, depth), sensitive, levels)
    decreases levels
  {
    var out := StripSensitiveDeep(v, sensitive, depth);
    forall key | key in out && !sensitive(key) && out[key].JObj? && levels > 0
      ensures Redacted(out[key].fields, sensitive, levels - 1)
    {
      assert out[key] == StrippedField(v.fields[key], key, sensitive, depth) ==
             JObj(StripSensitiveDeep(v.fields[key], sensitive, depth + 1));
      StripRedacts(v.fields[key], sensitive, depth + 1, levels - 1);
    }
  }

  /** Every sensitive name anywhere in the value carries the marker, inside arrays too. */
  ghost predicate FullyRedacted(v: Json, sensitive: string -> bool) {
    match v
    case JObj(fields) =>
      forall key :: key in fields ==>
        if sensitive(key) then fields[key] == REDACTED else FullyRedacted(fields[key], sensitive)
    case JArr(items) => forall i :: 0 <= i < |items| ==> FullyRedacted(items[i], sensitive)
    case _ => true
  }

  /** The arrays that the recursion reaches, and copies as they are, hold nothing sensitive. */
  ghost predicate ArraysClean(v: Json, sensitive: string -> bool, depth: nat)
    decreases 9 - depth
  {
    depth <= 8 && v.JObj? ==> forall key :: key in v.fields && !sensitive(key) ==>
      FieldClean(v.fields[key], sensitive, depth)
  }

  ghost predicate FieldClean(field: Json, sensitive: string -> bool, depth: nat)
    requires depth <= 8
    decreases 9 - depth, 0
  {
    if field.JObj? then ArraysClean(field, sensitive, depth + 1) else field.JArr? ==> FullyRedacted(field, sensitive)
  }

  lemma {:induction false} FieldRedactedExactly(field: Json, key: string, sensitive: string -> bool, depth: nat)
    requires depth <= 8 && !sensitive(key)
    ensures FullyRedacted(StrippedField(field, key, sensitive, depth), sensitive) <==>
            FieldClean(field, sensitive, depth)
    decreases 9 - depth, 0
  {
    if field.JObj? { RedactedExactly(field, sensitive, depth + 1); }
  }

  lemma ObjectRedacted(out: Object, fields: Object, sensitive: string -> bool, depth: nat)
    requires depth <= 8 && out.Keys == fields.Keys
    requires forall key :: key in out && sensitive(key) ==> out[key] == REDACTED
    requires forall key :: key in out && !sensitive(key) ==>
               (FullyRedacted(out[key], sensitive) <==> FieldClean(fields[key], sensitive, depth))
    ensures FullyRedacted(JObj(out), sensitive) <==> ArraysClean(JObj(fields), sensitive, depth)
  {
    var v, w := JObj(out), JObj(fields);
    if FullyRedacted(v, sensitive) {
      forall key | key in w.fields && !sensitive(key) ensures FieldClean(w.fields[key], sensitive, depth) {
        assert FullyRedacted(v.fields[key], sensitive);
      }
    }
    if ArraysClean(w, sensitive, depth) {
      forall key | key in v.fields
        ensures if sensitive(key) then v.fields[key] == REDACTED else FullyRedacted(v.fields[key], sensitive)
      {
        assert !sensitive(key) ==> FieldClean(w.fields[key], sensitive, depth);
      }
    }
  }

  /** Nothing sensitive is left at all exactly when no such array holds any: arrays are not looked into. */
  lemma {:induction false} RedactedExactly(v: Json, sensitive: string -> bool, depth: nat)
    ensures FullyRedacted(JObj(StripSensitiveDeep(v, sensitive, depth)), sensitive) <==>
            ArraysClean(v, sensitive, depth)
    decreases 9 - depth, 1
  {
    if depth <= 8 && v.JObj? {
      var out := StripSensitiveDeep(v, sensitive, depth);
      forall key | key in out && !sensitive(key)
        ensures FullyRedacted(out[key], sensitive) <==> FieldClean(v.fields[key], sensitive, depth)
      {
        FieldRedactedExactly(v.fields[key], key, sensitive, depth);
      }
      ObjectRedacted(out, v.fields, sensitive, depth);
    }
  }

  /** Stripping again changes nothing. */
  lemma {:induction false} StripTwice(v: Json, sensitive: string -> bool, depth: nat)
    ensures StripSensitiveDeep(JObj(StripSensitiveDeep(v, sensitive, depth)), sensitive, depth) ==
            StripSensitiveDeep(v, sensitive, depth)
    decreases 9 - depth
  {
    var out := StripSensitiveDeep(v, sensitive, depth);
    if depth <= 8 && v.JObj? {
      forall key | key in out ensures StrippedField(out[key], key, sensitive, depth) == out[key] {
        var field := v.fields[key];
        assert out[key] == StrippedField(field, key, sensitive, depth);
        if !sensitive(key) && field.JObj? {
          assert out[key] == JObj(StripSensitiveDeep(field, sensitive, depth + 1));
          StripTwice(field, sensitive, depth + 1);
        }
      }
      var again := StripSensitiveDeep(JObj(out), sensitive, depth);
      assert again.Keys == out.Keys;
      assert forall key :: key in out ==> again[key] == StrippedField(out[key], key, sensitive, depth);
    }
  }

  ghost predicate OpenPath(path: seq<string>, sensitive: string -> bool) {
    forall i :: 0 <= i < |path| ==> !sensitive(path[i])
  }

  /** Nothing else is lost: along names that are not sensitive, down to the ninth level, every value is kept. */
  lemma {:induction false} OpenPathKept(v: Json, sensitive: string -> bool, depth: nat, path: seq<string>)
    requires v.JObj? && path != [] && depth + |path| <= 9 && OpenPath(path, sensitive)
    ensures var before, kept := Follow(v, path), Follow(JObj(StripSensitiveDeep(v, sensitive, depth)), path);
            (before.None? <==> kept.None?) && (before.Some? && !before.value.JObj? ==> kept == before)
    decreases |path|
  {
    var key, rest := path[0], path[1..];
    if key in v.fields {
      var field := v.fields[key];
      assert !sensitive(path[0]);
      assert StripSensitiveDeep(v, sensitive, depth)[key] == StrippedField(field, key, sensitive, depth);
      if rest != [] && field.JObj? {
        assert OpenPath(rest, sensitive);
        OpenPathKept(field, sensitive, depth + 1, rest);
      }
    }
  }

  /** The recursion as the source runs it: an output object filled field by field. */
  method Strip(v: Json, sensitive: string -> bool, depth: nat) returns (out: Object)
    ensures out == StripSensitiveDeep(v, sensitive, depth)
    decreases 9 - depth
  {
    out := map[];
    if depth > 8 || !v.JObj? { return; }
    var todo := v.fields.Keys;
    while todo != {}
      invariant todo <= v.fields.Keys
      invariant out == map key | key in v.fields && key !in todo :: StrippedField(v.fields[key], key, sensitive, depth)
      decreases todo
    {
      var key :| key in todo;
      var field := v.fields[key];
      if sensitive(key) {
        out := out[key := REDACTED];
      } else if field.JObj? {
        var inner := Strip(field, sensitive, depth + 1);
        out := out[key := JObj(inner)];
      } else {
        out := out[key := field];
      }
      todo := todo - {key};
    }
  }

  // ------------------------------------------------------------------ the replayed message

  datatype Role = Master | Child | Retry | Dlq | Unknown

  datatype Queues = Queues(master: string, child: string, dlq: string, retry: string)

  function ClassifyFailedQueue(queue: string, q: Queues): Role {
    if queue == q.master then Master else if queue == q.child then Child
    else if queue == q.retry then Retry else if queue == q.dlq then Dlq else Unknown
  }

  /** A row of the failed-job table. */
  datatype FailedRow = FailedRow(id: string, queueName: string, scrapeJobId: Option<string>,
                                 correlationId: Option<string>, payload: Json)

  datatype Error = QueueNotSupported | MissingJobId | MissingCorrelationId | InvalidKind | MissingChildStep

  datatype Outcome = Added(role: Role, jobId: string, data: Message) | Refused(error: Error)

  function TrimmedText(t: Option<string>): string { if t.Some? then Trim(t.value) else "" }

  function StepOf(payload: Object): string { AsTrimmedString(Get(payload, "step")) }

  function KnownType(payload: Object): JobMessages.Field {
    var t := Get(payload, "type");
    if IsText(t) && t.value.s in ChildJobTypes() then t else None
  }

  function Restarted(job: string, kind: JobMessages.Field, correlation: string): Message {
    Empty().(scrapeJobId := Some(JStr(job)), kind := kind, correlationId := Some(JStr(correlation)),
             replayAttempts := Count(0))
  }

  /** The message of one role; the id of a retry job also holds the clock. */
  function Built(role: Role, row: FailedRow, job: string, correlation: string, payload: Object, q: Queues,
                 now: string): Outcome {
    var restarted := Restarted(job, Get(payload, "kind"), correlation);
    var step := StepOf(payload);
    match role
    case Master => Added(Master, job, restarted)
    case Child =>
      if step == "" then Refused(MissingChildStep)
      else Added(Child, job + ":" + step, restarted.(step := Some(JStr(step)), jobType := KnownType(payload)))
    case _ =>
      Added(Retry, "replay:failed-job:" + row.id + ":" + now,
            if step == "" then restarted.(target := Some(JStr("master")))
            else restarted.(step := Some(JStr(step)), target := Some(JStr("child")), jobType := KnownType(payload),
                        dlqMeta := Some(JObj(map["sourceQueue" := JStr(q.child)]))))
  }

  /** The payload of a row as the replay uses it: stamped with the ids, then stripped. */
  function PayloadOf(row: FailedRow, sensitive: string -> bool): Object {
    var stamped := AsRecord(Some(row.payload))["scrapeJobId" := JStr(TrimmedText(row.scrapeJobId))]
                     ["correlationId" := JStr(TrimmedText(row.correlationId))];
    StripSensitiveDeep(JObj(stamped), sensitive, 0)
  }

  function ReplayFailedJob(row: FailedRow, q: Queues, sensitive: string -> bool, now: string): Outcome {
    var role := ClassifyFailedQueue(row.queueName, q);
    var job, correlation := TrimmedText(row.scrapeJobId), TrimmedText(row.correlationId);
    var payload := PayloadOf(row, sensitive);
    if role == Unknown || role == Dlq then Refused(QueueNotSupported)
    else if job == "" then Refused(MissingJobId)
    else if correlation == "" then Refused(MissingCorrelationId)
    else if !IsValidKind(Get(payload, "kind")) then Refused(InvalidKind)
    else Built(role, row, job, correlation, payload, q, now)
  }

  ghost predicate DistinctQueues(q: Queues) {
    && q.master != q.child && q.master != q.retry && q.master != q.dlq
    && q.child != q.retry && q.child != q.dlq && q.retry != q.dlq
  }

  ghost predicate Blank(t: Option<string>) { t.None? || AllSpace(t.value) }

  /** The row's payload names a kind of job, under a name that is not redacted. */
  predicate NamesKind(row: FailedRow, sensitive: string -> bool) {
    !sensitive("kind") && row.payload.JObj? && IsValidKind(Get(row.payload.fields, "kind"))
  }

  /** It names a child step, under a name that is not redacted, or one that is. */
  ghost predicate NamesStep(row: FailedRow, sensitive: string -> bool) {
    row.payload.JObj? && "step" in row.payload.fields &&
    (sensitive("step") || (row.payload.fields["step"].JStr? && !AllSpace(row.payload.fields["step"].s)))
  }

  lemma StampedFields(o: Object, job: Json, correlation: Json)
    ensures var stamped := o["scrapeJobId" := job]["correlationId" := correlation];
            Get(stamped, "kind") == Get(o, "kind") && Get(stamped, "step") == Get(o, "step")
  {
    assert |"scrapeJobId"| == 11 && |"correlationId"| == 13 && |"kind"| == 4 && |"step"| == 4;
  }

  lemma StrippedGet(o: Object, key: string, sensitive: string -> bool)
    ensures var kept := Get(StripSensitiveDeep(JObj(o), sensitive, 0), key);
            && (kept.None? <==> key !in o)
            && (key in o && sensitive(key) ==> kept == Some(REDACTED))
            && (key in o && !sensitive(key) && !o[key].JObj? ==> kept == Some(o[key]))
            && (key in o && !sensitive(key) && o[key].JObj? ==> kept.value.JObj?)
  {
  }

  lemma RedactedIsNoKind()
    ensures !IsValidKind(Some(REDACTED)) && !AllSpace("[redacted]")
  {
    assert "[redacted]"[0] == '[';
  }

  lemma KindReadsThrough(row: FailedRow, sensitive: string -> bool)
    ensures IsValidKind(Get(PayloadOf(row, sensitive), "kind")) <==> NamesKind(row, sensitive)
  {
    var o := AsRecord(Some(row.payload));
    var job, correlation := JStr(TrimmedText(row.scrapeJobId)), JStr(TrimmedText(row.correlationId));
    StampedFields(o, job, correlation);
    StrippedGet(o["scrapeJobId" := job]["correlationId" := correlation], "kind", sensitive);
    RedactedIsNoKind();
  }

  lemma StepReadsThrough(row: FailedRow, sensitive: string -> bool)
    ensures StepOf(PayloadOf(row, sensitive)) != "" <==> NamesStep(row, sensitive)
  {
    var o := AsRecord(Some(row.payload));
    var job, correlation := JStr(TrimmedText(row.scrapeJobId)), JStr(TrimmedText(row.correlationId));
    StampedFields(o, job, correlation);
    StrippedGet(o["scrapeJobId" := job]["correlationId" := correlation], "step", sensitive);
    RedactedIsNoKind();
    var step := Get(PayloadOf(row, sensitive), "step");
    if step.Some? && step.value.JStr? { BlankExactly(step.value.s); }
  }

  lemma BlankText(t: Option<string>)
    ensures TrimmedText(t) == "" <==> Blank(t)
  {
    if t.Some? { BlankExactly(t.value); }
  }

  /** With distinct names each queue has its own role. */
  lemma RolesExactly(queue: string, q: Queues)
    requires DistinctQueues(q)
    ensures var role := ClassifyFailedQueue(queue, q);
            && (role == Master <==> queue == q.master) && (role == Child <==> queue == q.child)
            && (role == Retry <==> queue == q.retry) && (role == Dlq <==> queue == q.dlq)
  {
  }

  lemma BuiltExactly(role: Role, row: FailedRow, job: string, correlation: string, payload: Object, q: Queues,
                     now: string)
    requires role in {Master, Child, Retry}
    ensures var o := Built(role, row, job, correlation, payload, q, now);
            if role == Child && StepOf(payload) == "" then o == Refused(MissingChildStep)
            else o.Added? && o.role == role
  {
  }

  /** The outcome, once every question about the row is answered. */
  lemma OutcomeExactly(row: FailedRow, q: Queues, sensitive: string -> bool, now: string, role: Role, payload: Object)
    requires role == ClassifyFailedQueue(row.queueName, q) && payload == PayloadOf(row, sensitive)
    ensures var o := ReplayFailedJob(row, q, sensitive, now);
            if role !in {Master, Child, Retry} then o == Refused(QueueNotSupported)
            else if TrimmedText(row.scrapeJobId) == "" then o == Refused(MissingJobId)
            else if TrimmedText(row.correlationId) == "" then o == Refused(MissingCorrelationId)
            else if !IsValidKind(Get(payload, "kind")) then o == Refused(InvalidKind)
            else if role == Child && StepOf(payload) == "" then o == Refused(MissingChildStep)
            else o.Added? && o.role == role
  {
    if role in {Master, Child, Retry} {
      BuiltExactly(role, row, TrimmedText(row.scrapeJobId), TrimmedText(row.correlationId), payload, q, now);
    }
  }

  /**
   * When each queue has its own name, a replay is refused exactly in these cases, tried in this
   * order, and else goes back to the queue the row failed in.
   */
  lemma FailedReplayExactly(row: FailedRow, q: Queues, sensitive: string -> bool, now: string)
    requires DistinctQueues(q)
    ensures var o := ReplayFailedJob(row, q, sensitive, now);
            o.Refused? && o.error == QueueNotSupported <==> row.queueName !in {q.master, q.child, q.retry}
    ensures var o := ReplayFailedJob(row, q, sensitive, now);
            row.queueName in {q.master, q.child, q.retry} ==>
            && (o == Refused(MissingJobId) <==> Blank(row.scrapeJobId))
            && (o == Refused(MissingCorrelationId) <==> !Blank(row.scrapeJobId) && Blank(row.correlationId))
            && (o == Refused(InvalidKind) <==>
                !Blank(row.scrapeJobId) && !Blank(row.correlationId) && !NamesKind(row, sensitive))
            && (o == Refused(MissingChildStep) <==>
                !Blank(row.scrapeJobId) && !Blank(row.correlationId) && NamesKind(row, sensitive) &&
                row.queueName == q.child && !NamesStep(row, sensitive))
            && (o.Added? ==> (o.role == Master <==> row.queueName == q.master) &&
                             (o.role == Child <==> row.queueName == q.child) &&
                             (o.role == Retry <==> row.queueName == q.retry))
  {
    BlankText(row.scrapeJobId);
    BlankText(row.correlationId);
    KindReadsThrough(row, sensitive);
    StepReadsThrough(row, sensitive);
    RolesExactly(row.queueName, q);
    OutcomeExactly(row, q, sensitive, now, ClassifyFailedQueue(row.queueName, q), PayloadOf(row, sensitive));
  }

  lemma BuiltIsFresh(role: Role, row: FailedRow, job: string, correlation: string, payload: Object, q: Queues,
                     now: string, other: NumberOf)
    requires role in {Master, Child, Retry}
    ensures var o := Built(role, row, job, correlation, payload, q, now);
            if role == Child && StepOf(payload) == "" then o == Refused(MissingChildStep)
            else && o.Added? && o.role == role && ReadReplayAttempts(o.data, other) == 0
                 && (role != Retry ==> Clean(o.data))
                 && (role == Master ==> o.jobId == job && o.data.step.None?)
                 && (role == Child ==> o.jobId == job + ":" + StepOf(payload))
                 && (role != Master && StepOf(payload) != "" ==> o.data.step == Some(JStr(StepOf(payload))))
                 && o.data.kind == Get(payload, "kind")
                 && o.data.scrapeJobId == Some(JStr(job)) && o.data.correlationId == Some(JStr(correlation))
  {
    ZeroCount(Built(role, row, job, correlation, payload, q, now), other);
  }

  lemma ZeroCount(o: Outcome, other: NumberOf)
    ensures o.Added? && o.data.replayAttempts == Count(0) ==> ReadReplayAttempts(o.data, other) == 0
  {
    assert (0 as real).Floor == 0;
  }

  /** The retry form goes to the child queue exactly when there is a step, on both replay paths. */
  lemma RetryFormRoutes(m: Message, step: string, names: Names)
    requires m.target == (if step == "" then Some(JStr("master")) else Some(JStr("child")))
    ensures ResolveRetryTarget(m, names) == (if step == "" then ToMaster else ToChild) == AdminTarget(m)
  {
    assert "master"[0] == 'm' && "child"[0] == 'c';
  }

  lemma FailedReplayRoutes(row: FailedRow, job: string, correlation: string, payload: Object, q: Queues, now: string,
                           names: Names)
    ensures var o := Built(Retry, row, job, correlation, payload, q, now);
            && o.Added?
            && ResolveRetryTarget(o.data, names) == (if StepOf(payload) == "" then ToMaster else ToChild)
            && AdminTarget(o.data) == ResolveRetryTarget(o.data, names)
  {
    RetryFormRoutes(Built(Retry, row, job, correlation, payload, q, now).data, StepOf(payload), names);
  }

  function QueueOf(role: Role): F.Queue
    requires role in {Master, Child, Retry}
  {
    match role case Master => F.MasterQueue case Child => F.ChildQueue case _ => F.RetryQueue
  }

  lemma BuiltIsArrival(role: Role, row: FailedRow, job: string, correlation: string, payload: Object, q: Queues,
                       now: string, cfg: F.Config)
    requires role in {Master, Child, Retry}
    ensures var o := Built(role, row, job, correlation, payload, q, now);
            o.Added? ==> o.role == role && F.Arrival(cfg, F.Token(QueueOf(role), o.data, F.ATTEMPTS))
  {
    BuiltIsFresh(role, row, job, correlation, payload, q, now, cfg.other);
  }

  /**
   * However often its job was replayed before, the message counts zero replays: it is an arrival like a new request,
   * so these replays are not bounded by the cap, but each causes only as many steps as one arrival may.
   */
  lemma FailedReplayIsArrival(row: FailedRow, q: Queues, sensitive: string -> bool, now: string, cfg: F.Config)
    ensures var o := ReplayFailedJob(row, q, sensitive, now);
            o.Added? ==>
              o.role in {Master, Child, Retry} && F.Arrival(cfg, F.Token(QueueOf(o.role), o.data, F.ATTEMPTS))
  {
    var job, correlation := TrimmedText(row.scrapeJobId), TrimmedText(row.correlationId);
    var payload, role := PayloadOf(row, sensitive), ClassifyFailedQueue(row.queueName, q);
    if role in {Master, Child, Retry} {
      BuiltIsArrival(role, row, job, correlation, payload, q, now, cfg);
    }
  }
}
