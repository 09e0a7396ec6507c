/**
 * The life of scrape-job rows and of the raw rows they leave (apps/worker-ingest/src/index.js): the master
 * worker claims a row by compare-and-swap, any number of persist children run, die and run again, and failure
 * handlers write the row whenever a delivery fails. Every awaited database call is one step, and steps of all
 * workers interleave freely.
 */
module IngestJob {
  import opened Basics
  import opened Json
  import opened PersistArtifacts

  type JobId = string
  type ExecId = nat
  type Time = int

  datatype Status = Queued | Running | Succeeded | Failed

  /** The row, and two counts kept for the proofs: successful claims and failure marks. */
  datatype Job = Job(kind: JobKind, payload: Json, status: Status, startedAt: Option<Time>, completedAt: Option<Time>,
                     lastError: Option<string>, claims: nat, marks: nat, everSucceeded: bool)

  /** A running persist child: the job it works for and how many calls of its plan are done. */
  datatype Exec = Exec(job: JobId, done: nat)

  datatype State = State(jobs: map<JobId, Job>, execs: map<ExecId, Exec>, rows: Rows)

  datatype Event =
    | Post(job: JobId, kind: JobKind, payload: Json)
    | Claim(job: JobId, at: Time)
    | StartPersist(exec: ExecId, job: JobId)
    | NextWrite(exec: ExecId)
    | Succeed(exec: ExecId, at: Time)
    | Die(exec: ExecId)
    | MarkFailed(job: JobId, at: Time, message: string)

  function Initial(): State { State(map[], map[], map[]) }

  /** What the persist step writes for a job, kind and payload. */
  type Planner = (JobId, JobKind, Json) -> seq<Write>

  function PlanBy(env: Env): Planner { (job, kind, payload) => Plan(job, kind, payload, env) }

  /** Hashes name their job, and within a job they name their row. */
  ghost predicate TellsApart(planner: Planner) { forall job, kind, payload :: Apart(planner(job, kind, payload), job) }

  lemma PlansTellApart(env: Env)
    ensures TellsApart(PlanBy(env))
  {
    forall job, kind, payload ensures Apart(PlanBy(env)(job, kind, payload), job) {
      HashTellsRowsApart(job, kind, payload, env);
    }
  }

  function PlanOf(s: State, job: JobId, planner: Planner): seq<Write>
    requires job in s.jobs
  {
    planner(job, s.jobs[job].kind, s.jobs[job].payload)
  }

  predicate Enabled(s: State, e: Event, planner: Planner) {
    match e
    case Post(job, _, _) => job !in s.jobs
    case Claim(job, _) => true
    case StartPersist(exec, job) => exec !in s.execs && job in s.jobs && s.jobs[job].status != Succeeded
    case NextWrite(exec) =>
      exec in s.execs && s.execs[exec].job in s.jobs && s.execs[exec].done < |PlanOf(s, s.execs[exec].job, planner)|
    case Succeed(exec, _) =>
      exec in s.execs && s.execs[exec].job in s.jobs && s.execs[exec].done == |PlanOf(s, s.execs[exec].job, planner)|
    case Die(exec) => exec in s.execs
    case MarkFailed(_, _, _) => true
  }

  function NewJob(kind: JobKind, payload: Json): Job { Job(kind, payload, Queued, None, None, None, 0, 0, false) }

  /** updateMany where status in (queued, failed): the compare-and-swap of the master worker. */
  function ClaimRow(j: Job, at: Time): Job {
    if j.status == Queued || j.status == Failed
    then j.(status := Running, startedAt := Some(at), completedAt := None, lastError := None, claims := j.claims + 1)
    else j
  }

  /** The unconditional update at the end of the persist child. */
  function SucceedRow(j: Job, at: Time): Job {
    j.(status := Succeeded, completedAt := Some(at), lastError := None, everSucceeded := true)
  }

  /** markFailed: no guard on the status; the message is cut at 4000 characters. */
  function FailRow(j: Job, at: Time, message: string): Job {
    j.(status := Failed, completedAt := Some(at),
       lastError := Some(if |message| <= 4000 then message else message[..4000]),
       marks := j.marks + 1)
  }

  function Next(s: State, e: Event, planner: Planner): State
    requires Enabled(s, e, planner)
  {
    match e
    case Post(job, kind, payload) => s.(jobs := s.jobs[job := NewJob(kind, payload)])
    case Claim(job, at) => if job in s.jobs then s.(jobs := s.jobs[job := ClaimRow(s.jobs[job], at)]) else s
    case StartPersist(exec, job) => s.(execs := s.execs[exec := Exec(job, 0)])
    case NextWrite(exec) =>
      var x := s.execs[exec];
      s.(execs := s.execs[exec := x.(done := x.done + 1)], rows := Insert(s.rows, PlanOf(s, x.job, planner)[x.done]))
    case Succeed(exec, at) =>
      var job := s.execs[exec].job;
      s.(execs := s.execs - {exec}, jobs := s.jobs[job := SucceedRow(s.jobs[job], at)])
    case Die(exec) => s.(execs := s.execs - {exec})
    case MarkFailed(job, at, message) =>
      if job in s.jobs then s.(jobs := s.jobs[job := FailRow(s.jobs[job], at, message)]) else s
  }

  ghost predicate IsRun(s: State, es: seq<Event>, planner: Planner)
    decreases |es|
  {
    es == [] || (Enabled(s, es[0], planner) && IsRun(Next(s, es[0], planner), es[1..], planner))
  }

  ghost function After(s: State, es: seq<Event>, planner: Planner): State
    requires IsRun(s, es, planner)
    decreases |es|
  {
    if es == [] then s else After(Next(s, es[0], planner), es[1..], planner)
  }

  // ------------------------------------------------------------------ what every run keeps

  /** The columns of a job row agree, and no claim goes without a reason. */
  predicate RowConsistent(j: Job) {
    && (j.completedAt.Some? <==> j.status == Succeeded || j.status == Failed)
    && (j.lastError.Some? <==> j.status == Failed)
    && (j.lastError.Some? ==> |j.lastError.value| <= 4000)
    && (j.startedAt.Some? <==> j.claims > 0)
    && j.claims + (if j.status == Queued || j.status == Failed then 1 else 0) <= 1 + j.marks
    && (j.status == Succeeded ==> j.everSucceeded)
  }

  /** A stored row is one its own job asks for, under its own key. */
  ghost predicate RowOwned(s: State, key: Key, planner: Planner)
    requires key in s.rows
  {
    var r := s.rows[key];
    key == KeyOf(r) && r.jobId in s.jobs && Create(r) in PlanOf(s, r.jobId, planner)
  }

  /** Everything before position n of the job's plan is in the tables. */
  ghost predicate WrittenUpTo(s: State, job: JobId, n: nat, planner: Planner)
    requires job in s.jobs
  {
    var plan := PlanOf(s, job, planner);
    n <= |plan| && forall i :: 0 <= i < n && plan[i].Create? ==> Settled(s.rows, plan[i].row)
  }

  ghost predicate ExecTruthful(s: State, x: Exec, planner: Planner) {
    x.job in s.jobs && WrittenUpTo(s, x.job, x.done, planner)
  }

  ghost predicate Inv(s: State, planner: Planner) {
    && (forall job :: job in s.jobs ==> RowConsistent(s.jobs[job]))
    && (forall key :: key in s.rows ==> RowOwned(s, key, planner))
    && (forall exec :: exec in s.execs ==> ExecTruthful(s, s.execs[exec], planner))
    && (forall job :: job in s.jobs && s.jobs[job].everSucceeded ==>
        WrittenUpTo(s, job, |PlanOf(s, job, planner)|, planner))
  }

  /** Nothing that is stored is ever changed: tables only grow, and jobs keep their kind and payload. */
  ghost predicate Grows(s: State, t: State) {
    && (forall key :: key in s.rows ==> key in t.rows && t.rows[key] == s.rows[key])
    && (forall job :: job in s.jobs ==>
        job in t.jobs && t.jobs[job].kind == s.jobs[job].kind && t.jobs[job].payload == s.jobs[job].payload)
  }

  lemma StepGrows(s: State, e: Event, planner: Planner)
    requires Enabled(s, e, planner)
    ensures Grows(s, Next(s, e, planner))
  {
  }

  lemma StepKeepsRows(s: State, e: Event, planner: Planner)
    requires Enabled(s, e, planner) && forall job :: job in s.jobs ==> RowConsistent(s.jobs[job])
    ensures forall job :: job in Next(s, e, planner).jobs ==> RowConsistent(Next(s, e, planner).jobs[job])
  {
  }

  lemma WrittenStays(s: State, t: State, job: JobId, n: nat, planner: Planner)
    requires Grows(s, t) && job in s.jobs && WrittenUpTo(s, job, n, planner)
    ensures job in t.jobs && WrittenUpTo(t, job, n, planner)
  {
  }

  /** After its write is executed the row is there: if the key was taken, it was taken by this very row. */
  lemma WriteSettles(s: State, job: JobId, n: nat, planner: Planner)
    requires TellsApart(planner) && job in s.jobs && forall key :: key in s.rows ==> RowOwned(s, key, planner)
    requires n < |PlanOf(s, job, planner)| && PlanOf(s, job, planner)[n].Create?
    ensures var r := PlanOf(s, job, planner)[n].row;
            Settled(Insert(s.rows, Create(r)), r) && r.jobId == job
  {
    var r := PlanOf(s, job, planner)[n].row;
    assert Apart(PlanOf(s, job, planner), job);
    if KeyOf(r) in s.rows {
      var t := s.rows[KeyOf(r)];
      assert RowOwned(s, KeyOf(r), planner) && Apart(PlanOf(s, t.jobId, planner), t.jobId);
      assert Named(t, t.jobId) && Named(r, job);
    }
  }

  lemma WriteKeepsOwners(s: State, exec: ExecId, planner: Planner)
    requires Enabled(s, NextWrite(exec), planner) && TellsApart(planner) && Inv(s, planner)
    ensures var t := Next(s, NextWrite(exec), planner); forall key :: key in t.rows ==> RowOwned(t, key, planner)
  {
    var x, t := s.execs[exec], Next(s, NextWrite(exec), planner);
    var w := PlanOf(s, x.job, planner)[x.done];
    if w.Create? { WriteSettles(s, x.job, x.done, planner); }
    forall key | key in t.rows ensures RowOwned(t, key, planner) {
      if key in s.rows { assert RowOwned(s, key, planner); }
    }
  }

  lemma WriteKeepsTruth(s: State, exec: ExecId, planner: Planner)
    requires Enabled(s, NextWrite(exec), planner) && TellsApart(planner) && Inv(s, planner)
    ensures var t := Next(s, NextWrite(exec), planner); ExecTruthful(t, t.execs[exec], planner)
  {
    var x, t := s.execs[exec], Next(s, NextWrite(exec), planner);
    assert ExecTruthful(s, x, planner);
    StepGrows(s, NextWrite(exec), planner);
    WrittenStays(s, t, x.job, x.done, planner);
    if PlanOf(s, x.job, planner)[x.done].Create? { WriteSettles(s, x.job, x.done, planner); }
  }

  lemma StepKeepsTables(s: State, e: Event, planner: Planner)
    requires Enabled(s, e, planner) && TellsApart(planner) && Inv(s, planner)
    ensures forall key :: key in Next(s, e, planner).rows ==> RowOwned(Next(s, e, planner), key, planner)
  {
    var t := Next(s, e, planner);
    if e.NextWrite? {
      WriteKeepsOwners(s, e.exec, planner);
    } else {
      StepGrows(s, e, planner);
      forall key | key in t.rows ensures RowOwned(t, key, planner) { assert RowOwned(s, key, planner); }
    }
  }

  lemma StepKeepsExecs(s: State, e: Event, planner: Planner)
    requires Enabled(s, e, planner) && TellsApart(planner) && Inv(s, planner)
    ensures forall exec :: exec in Next(s, e, planner).execs ==>
            ExecTruthful(Next(s, e, planner), Next(s, e, planner).execs[exec], planner)
  {
    var t := Next(s, e, planner);
    StepGrows(s, e, planner);
    if e.NextWrite? { WriteKeepsTruth(s, e.exec, planner); }
    forall exec | exec in t.execs ensures ExecTruthful(t, t.execs[exec], planner) {
      if exec in s.execs && t.execs[exec] == s.execs[exec] {
        assert ExecTruthful(s, s.execs[exec], planner);
        WrittenStays(s, t, s.execs[exec].job, s.execs[exec].done, planner);
      }
    }
  }

  lemma StepKeepsInv(s: State, e: Event, planner: Planner)
    requires Enabled(s, e, planner) && TellsApart(planner) && Inv(s, planner)
    ensures Inv(Next(s, e, planner), planner)
  {
    var t := Next(s, e, planner);
    StepGrows(s, e, planner);
    StepKeepsRows(s, e, planner);
    StepKeepsTables(s, e, planner);
    StepKeepsExecs(s, e, planner);
    forall job | job in t.jobs && t.jobs[job].everSucceeded
      ensures WrittenUpTo(t, job, |PlanOf(t, job, planner)|, planner)
    {
      if job in s.jobs && s.jobs[job].everSucceeded {
        WrittenStays(s, t, job, |PlanOf(s, job, planner)|, planner);
      } else {
        assert ExecTruthful(s, s.execs[e.exec], planner);
        WrittenStays(s, t, job, |PlanOf(s, job, planner)|, planner);
      }
    }
  }

  lemma {:induction false} RunKeepsInv(s: State, es: seq<Event>, planner: Planner)
    requires TellsApart(planner) && Inv(s, planner) && IsRun(s, es, planner)
    ensures Inv(After(s, es, planner), planner)
    decreases |es|
  {
    if es != [] {
      StepKeepsInv(s, es[0], planner);
      RunKeepsInv(Next(s, es[0], planner), es[1..], planner);
    }
  }

  // ------------------------------------------------------------------ main results

  /** The job's rows over all raw tables. */
  function RowsOf(rows: Rows, job: JobId): set<Row> { set key | key in rows && rows[key].jobId == job :: rows[key] }

  lemma Reachable(es: seq<Event>, env: Env)
    requires IsRun(Initial(), es, PlanBy(env))
    ensures TellsApart(PlanBy(env)) && Inv(After(Initial(), es, PlanBy(env)), PlanBy(env))
  {
    PlansTellApart(env);
    RunKeepsInv(Initial(), es, PlanBy(env));
  }

  /** In every reachable state the columns of a job row agree, and every claim but the first follows a failure mark. */
  lemma JobRowsConsistent(es: seq<Event>, env: Env, job: JobId)
    requires IsRun(Initial(), es, PlanBy(env)) && job in After(Initial(), es, PlanBy(env)).jobs
    ensures var j := After(Initial(), es, PlanBy(env)).jobs[job];
            && (j.completedAt.Some? <==> j.status == Succeeded || j.status == Failed)
            && (j.lastError.Some? <==> j.status == Failed)
            && j.claims <= 1 + j.marks
  {
    Reachable(es, env);
  }

  /**
   * Exactly-once effect: whatever deliveries, deaths and redeliveries happened, a job's stored rows are among the
   * distinct rows its payload asks for, and once it has been marked succeeded they are exactly those, each once.
   */
  lemma ExactlyOnceEffect(es: seq<Event>, env: Env, job: JobId)
    requires IsRun(Initial(), es, PlanBy(env)) && job in After(Initial(), es, PlanBy(env)).jobs
    ensures var s := After(Initial(), es, PlanBy(env));
            var wanted := RowsIn(Plan(job, s.jobs[job].kind, s.jobs[job].payload, env));
            RowsOf(s.rows, job) <= wanted && (s.jobs[job].everSucceeded ==> RowsOf(s.rows, job) == wanted)
    ensures var s := After(Initial(), es, PlanBy(env));
            (s.jobs[job].status == Succeeded ==> s.jobs[job].everSucceeded) &&
            forall a, b :: a in s.rows && b in s.rows && s.rows[a] == s.rows[b] ==> a == b
  {
    Reachable(es, env);
    var s := After(Initial(), es, PlanBy(env));
    OwnRows(s, PlanBy(env), job);
    forall a, b | a in s.rows && b in s.rows && s.rows[a] == s.rows[b] ensures a == b {
      assert RowOwned(s, a, PlanBy(env)) && RowOwned(s, b, PlanBy(env));
    }
  }

  lemma OwnRows(s: State, planner: Planner, job: JobId)
    requires TellsApart(planner) && Inv(s, planner) && job in s.jobs
    ensures RowsOf(s.rows, job) <= RowsIn(PlanOf(s, job, planner))
    ensures s.jobs[job].everSucceeded ==> RowsIn(PlanOf(s, job, planner)) <= RowsOf(s.rows, job)
  {
    var plan := PlanOf(s, job, planner);
    forall key | key in s.rows && s.rows[key].jobId == job ensures s.rows[key] in RowsIn(plan) {
      assert RowOwned(s, key, planner);
    }
    if s.jobs[job].everSucceeded {
      forall r | r in RowsIn(plan) ensures r in RowsOf(s.rows, job) {
        var i :| 0 <= i < |plan| && plan[i] == Create(r);
        assert Settled(s.rows, r) && Apart(plan, job);
      }
    }
  }

  /** After a success, further runs of the persist child find every row there and write none. */
  lemma RunsAfterSuccessWriteNothing(s: State, exec: ExecId, planner: Planner)
    requires Inv(s, planner) && Enabled(s, NextWrite(exec), planner)
    requires s.jobs[s.execs[exec].job].everSucceeded
    ensures Next(s, NextWrite(exec), planner).rows == s.rows
  {
    var w := PlanOf(s, s.execs[exec].job, planner)[s.execs[exec].done];
    if w.Create? { assert Settled(s.rows, w.row); }
  }

  /** The job a step works for. */
  function Subject(s: State, e: Event): Option<JobId> {
    match e
    case Post(job, _, _) => Some(job)
    case Claim(job, _) => Some(job)
    case StartPersist(_, job) => Some(job)
    case MarkFailed(job, _, _) => Some(job)
    case NextWrite(exec) => if exec in s.execs then Some(s.execs[exec].job) else None
    case Succeed(exec, _) => if exec in s.execs then Some(s.execs[exec].job) else None
    case Die(exec) => if exec in s.execs then Some(s.execs[exec].job) else None
  }

  /** Jobs share the tables without touching each other's rows. */
  lemma OtherJobsUntouched(s: State, e: Event, planner: Planner, job: JobId)
    requires TellsApart(planner) && Inv(s, planner) && Enabled(s, e, planner)
    requires job in s.jobs && Subject(s, e) != Some(job)
    ensures RowsOf(Next(s, e, planner).rows, job) == RowsOf(s.rows, job) && Next(s, e, planner).jobs[job] == s.jobs[job]
  {
    if e.NextWrite? {
      var x := s.execs[e.exec];
      var w := PlanOf(s, x.job, planner)[x.done];
      if w.Create? {
        assert Apart(PlanOf(s, x.job, planner), x.job);
        InsertForeign(s.rows, w, job);
      }
    }
  }

  lemma InsertForeign(rows: Rows, w: Write, job: JobId)
    requires w.Create? && w.row.jobId != job
    ensures RowsOf(Insert(rows, w), job) == RowsOf(rows, job)
  {
    var t := Insert(rows, w);
    forall r | r in RowsOf(rows, job) ensures r in RowsOf(t, job) {
      var key :| key in rows && rows[key].jobId == job && rows[key] == r;
      assert t[key] == r;
    }
  }

  predicate IsSucceeded(s: State, job: JobId) { job in s.jobs && s.jobs[job].status == Succeeded }

  /** What a step writes into the row's status: true for a success, false for a failure mark, else nothing. */
  function VerdictOf(s: State, e: Event, job: JobId): seq<bool> {
    match e
    case Succeed(exec, _) => if exec in s.execs && s.execs[exec].job == job then [true] else []
    case MarkFailed(failed, _, _) => if failed == job then [false] else []
    case _ => []
  }

  ghost function Verdicts(s: State, es: seq<Event>, planner: Planner, job: JobId): seq<bool>
    requires IsRun(s, es, planner)
    decreases |es|
  {
    if es == [] then []
    else VerdictOf(s, es[0], job) + Verdicts(Next(s, es[0], planner), es[1..], planner, job)
  }

  /** A success outlives every step but a failure mark: the handler that writes it does not look at the status. */
  lemma SuccessKeptExactly(s: State, e: Event, planner: Planner, job: JobId)
    requires Enabled(s, e, planner) && IsSucceeded(s, job)
    ensures IsSucceeded(Next(s, e, planner), job) <==> !(e.MarkFailed? && e.job == job)
  {
  }

  lemma StepVerdict(s: State, e: Event, planner: Planner, job: JobId)
    requires Enabled(s, e, planner)
    ensures IsSucceeded(Next(s, e, planner), job) <==>
            if VerdictOf(s, e, job) == [] then IsSucceeded(s, job) else VerdictOf(s, e, job)[0]
  {
  }

  /**
   * Over a run a job ends up succeeded exactly when the last of its verdicts is a success, or when it had none and was
   * succeeded before: once succeeded it is so again after the run iff no failure mark comes after its last success.
   */
  lemma {:induction false} SucceededExactly(s: State, es: seq<Event>, planner: Planner, job: JobId)
    requires IsRun(s, es, planner)
    ensures var v := Verdicts(s, es, planner, job);
            IsSucceeded(After(s, es, planner), job) <==> if v == [] then IsSucceeded(s, job) else v[|v| - 1]
    decreases |es|
  {
    if es != [] {
      SucceededExactly(Next(s, es[0], planner), es[1..], planner, job);
      StepVerdict(s, es[0], planner, job);
    }
  }

  /** A failure mark after the success turns the row back to failed, and the master worker may then claim it again. */
  lemma SuccessIsNotFinal(s: State, planner: Planner, job: JobId, at: Time, message: string)
    requires IsSucceeded(s, job)
    ensures var t := Next(s, MarkFailed(job, at, message), planner);
            t.jobs[job].status == Failed && Next(t, Claim(job, at), planner).jobs[job].status == Running
  {
    assert Next(s, MarkFailed(job, at, message), planner).jobs[job] == FailRow(s.jobs[job], at, message);
  }

  /** A job keeps the kind and the payload it was posted with. */
  lemma {:induction false} JobsAreAsPosted(s: State, es: seq<Event>, planner: Planner, job: JobId)
    requires IsRun(s, es, planner) && job in After(s, es, planner).jobs
    ensures var j := After(s, es, planner).jobs[job];
            if job in s.jobs then j.kind == s.jobs[job].kind && j.payload == s.jobs[job].payload
            else Post(job, j.kind, j.payload) in es
    decreases |es|
  {
    if es != [] {
      JobsAreAsPosted(Next(s, es[0], planner), es[1..], planner, job);
    }
  }

  /** The text is the message, cut after 4000 characters. */
  predicate IsCutOf(text: string, message: string) { text <= message && |text| == Min(|message|, 4000) }

  /** The failure mark of a job that comes last in the run, if there is one. */
  ghost function LastMark(es: seq<Event>, job: JobId): Option<Event> {
    if es == [] then None
    else
      var later := LastMark(es[1..], job);
      if later.Some? then later
      else if es[0].MarkFailed? && es[0].job == job then Some(es[0]) else None
  }

  lemma StepToFailed(s: State, e: Event, planner: Planner, job: JobId)
    requires Enabled(s, e, planner) && job in Next(s, e, planner).jobs
    requires Next(s, e, planner).jobs[job].status == Failed
    ensures job in s.jobs
    ensures var j := Next(s, e, planner).jobs[job];
            if e.MarkFailed? && e.job == job
            then j.lastError.Some? && IsCutOf(j.lastError.value, e.message) && j.completedAt == Some(e.at)
            else j == s.jobs[job]
  {
  }

  /** A failed row shows its last failure mark: the time, and the message cut after 4000 characters. */
  lemma {:induction false} FailedShowsLastMark(s: State, es: seq<Event>, planner: Planner, job: JobId)
    requires IsRun(s, es, planner) && job in After(s, es, planner).jobs
    requires After(s, es, planner).jobs[job].status == Failed
    ensures job in s.jobs || LastMark(es, job).Some?
    ensures var j, mark := After(s, es, planner).jobs[job], LastMark(es, job);
            if mark.Some?
            then mark.value.MarkFailed? && j.lastError.Some? && IsCutOf(j.lastError.value, mark.value.message) &&
                 j.completedAt == Some(mark.value.at)
            else j == s.jobs[job]
    decreases |es|
  {
    if es != [] {
      FailedShowsLastMark(Next(s, es[0], planner), es[1..], planner, job);
      if LastMark(es[1..], job).None? { StepToFailed(s, es[0], planner, job); }
    }
  }

  /** The time of the last success the run marked for a job. */
  ghost function LastSuccess(s: State, es: seq<Event>, planner: Planner, job: JobId): Option<Time>
    requires IsRun(s, es, planner)
    decreases |es|
  {
    if es == [] then None
    else
      var later := LastSuccess(Next(s, es[0], planner), es[1..], planner, job);
      if later.Some? then later
      else if es[0].Succeed? && es[0].exec in s.execs && s.execs[es[0].exec].job == job then Some(es[0].at) else None
  }

  /** A succeeded row shows the time of its last success. */
  lemma {:induction false} SucceededAtLastSuccess(s: State, es: seq<Event>, planner: Planner, job: JobId)
    requires IsRun(s, es, planner) && IsSucceeded(After(s, es, planner), job)
    ensures var success := LastSuccess(s, es, planner, job);
            if success.Some? then After(s, es, planner).jobs[job].completedAt == success
            else IsSucceeded(s, job) && After(s, es, planner).jobs[job] == s.jobs[job]
    decreases |es|
  {
    if es != [] {
      SucceededAtLastSuccess(Next(s, es[0], planner), es[1..], planner, job);
      StepVerdict(s, es[0], planner, job);
    }
  }

  /** The claim of a job that was granted last in the run, if there is one. */
  ghost function LastClaim(s: State, es: seq<Event>, planner: Planner, job: JobId): Option<Time>
    requires IsRun(s, es, planner)
    decreases |es|
  {
    if es == [] then None
    else
      var later := LastClaim(Next(s, es[0], planner), es[1..], planner, job);
      if later.Some? then later
      else if es[0].Claim? && es[0].job == job && job in s.jobs && s.jobs[job].status in {Queued, Failed}
      then Some(es[0].at) else None
  }

  /** startedAt is the time of the last claim that found the row queued or failed. */
  lemma {:induction false} StartedAtLastClaim(s: State, es: seq<Event>, planner: Planner, job: JobId)
    requires IsRun(s, es, planner) && job in s.jobs
    ensures job in After(s, es, planner).jobs
    ensures var claim := LastClaim(s, es, planner, job);
            After(s, es, planner).jobs[job].startedAt == if claim.Some? then claim else s.jobs[job].startedAt
    decreases |es|
  {
    if es != [] {
      StartedAtLastClaim(Next(s, es[0], planner), es[1..], planner, job);
    }
  }

  // ------------------------------------------------------------------ the handlers, run without interference

  datatype MasterOutcome = NotFound | AlreadySucceeded | SkippedStatus(status: Status) | Claimed

  datatype ChildOutcome = Skipped | Completed | Died

  class JobTable {
    var jobs: map<JobId, Job>

    constructor () ensures jobs == map[] { jobs := map[]; }

    /** The head of processMasterJob, up to the claim. */
    method ClaimForMaster(job: JobId, at: Time) returns (outcome: MasterOutcome)
      modifies this
      ensures jobs == if job in old(jobs) then old(jobs)[job := ClaimRow(old(jobs)[job], at)] else old(jobs)
      ensures outcome == if job !in old(jobs) then NotFound
                         else match old(jobs)[job].status
                              case Succeeded => AlreadySucceeded
                              case Running => SkippedStatus(Running)
                              case _ => Claimed
    {
      if job !in jobs { return NotFound; }
      var row := jobs[job];
      if row.status == Succeeded {
        assert jobs == jobs[job := row];
        return AlreadySucceeded;
      }
      var count := 0;
      if row.status == Queued || row.status == Failed {
        jobs := jobs[job := row.(status := Running, startedAt := Some(at), completedAt := None, lastError := None,
                                 claims := row.claims + 1)];
        count := 1;
      }
      if count == 0 {
        assert jobs == jobs[job := row];
        return SkippedStatus(row.status);
      }
      outcome := Claimed;
    }

    method MarkFailedRow(job: JobId, at: Time, message: string)
      modifies this
      ensures jobs == if job in old(jobs) then old(jobs)[job := FailRow(old(jobs)[job], at, message)] else old(jobs)
    {
      if job in jobs {
        var row := jobs[job];
        var cut := if |message| <= 4000 then message else message[..4000];
        jobs := jobs[job := row.(status := Failed, completedAt := Some(at), lastError := Some(cut),
                                 marks := row.marks + 1)];
      }
    }

    /**
     * The persist step of processChildJob, of whose database calls the first `accepted` go through: the tables have
     * a prefix of the plan, and the row turns to succeeded only after the whole of it.
     */
    method PersistChild(tables: RawTables, job: JobId, env: Env, accepted: nat, at: Time)
      returns (outcome: ChildOutcome)
      modifies this, tables
      ensures outcome == Skipped <==> job !in old(jobs) || old(jobs)[job].status == Succeeded
      ensures outcome == Skipped ==> jobs == old(jobs) && tables.rows == old(tables.rows)
      ensures outcome != Skipped ==>
              var plan := Plan(job, old(jobs)[job].kind, old(jobs)[job].payload, env);
              && (outcome == Completed <==> accepted > |plan|)
              && tables.rows == Applied(old(tables.rows), plan[..Min(accepted, |plan|)])
              && jobs == if outcome == Completed then old(jobs)[job := SucceedRow(old(jobs)[job], at)] else old(jobs)
    {
      if job !in jobs || jobs[job].status == Succeeded { return Skipped; }
      var row := jobs[job];
      ghost var plan := Plan(job, row.kind, row.payload, env);
      var summary, died := tables.PersistIngestArtifacts(job, row.kind, row.payload, env, accepted);
      if died { return Died; }
      var calls := |summary.wrote| + |summary.skippedDuplicate|;
      SummaryCounts(old(tables.rows), plan);
      if accepted == calls { return Died; }
      jobs := jobs[job := row.(status := Succeeded, completedAt := Some(at), lastError := None, everSucceeded := true)];
      outcome := Completed;
    }
  }

  /** Every call of a finished run is reported once, as written or as a skipped duplicate. */
  lemma {:induction false} SummaryCounts(rows: Rows, plan: seq<Write>)
    ensures var s := SummaryOf(rows, plan); |s.wrote| + |s.skippedDuplicate| == |plan|
  {
    if plan != [] { SummaryCounts(rows, plan[..|plan| - 1]); }
  }

  /** The state after the next n calls of a persist child's plan. */
  function Wrote(s: State, exec: ExecId, n: nat, planner: Planner): State
    requires exec in s.execs && s.execs[exec].job in s.jobs &&
             s.execs[exec].done + n <= |PlanOf(s, s.execs[exec].job, planner)|
  {
    var x := s.execs[exec];
    s.(execs := s.execs[exec := x.(done := x.done + n)],
       rows := Applied(s.rows, PlanOf(s, x.job, planner)[x.done..x.done + n]))
  }

  lemma WroteMore(s: State, exec: ExecId, n: nat, planner: Planner)
    requires exec in s.execs && s.execs[exec].job in s.jobs &&
             s.execs[exec].done + n + 1 <= |PlanOf(s, s.execs[exec].job, planner)|
    ensures Wrote(Next(s, NextWrite(exec), planner), exec, n, planner) == Wrote(s, exec, n + 1, planner)
  {
    var x, t := s.execs[exec], Next(s, NextWrite(exec), planner);
    var plan := PlanOf(s, x.job, planner);
    assert t.execs[exec := x.(done := x.done + n + 1)] == s.execs[exec := x.(done := x.done + n + 1)];
    AppliedCons(s.rows, plan[x.done], plan[x.done + 1..x.done + n + 1]);
    assert [plan[x.done]] + plan[x.done + 1..x.done + n + 1] == plan[x.done..x.done + n + 1];
  }

  lemma RunCons(s: State, e: Event, es: seq<Event>, planner: Planner)
    requires Enabled(s, e, planner) && IsRun(Next(s, e, planner), es, planner)
    ensures IsRun(s, [e] + es, planner) && After(s, [e] + es, planner) == After(Next(s, e, planner), es, planner)
  {
    assert ([e] + es)[1..] == es;
  }

  /** A persist child that runs alone is the corresponding run of steps. */
  lemma {:induction false} RunAlone(s: State, exec: ExecId, n: nat, planner: Planner)
    requires exec in s.execs && s.execs[exec].job in s.jobs &&
             s.execs[exec].done + n <= |PlanOf(s, s.execs[exec].job, planner)|
    ensures IsRun(s, Repeat(NextWrite(exec), n), planner)
    ensures After(s, Repeat(NextWrite(exec), n), planner) == Wrote(s, exec, n, planner)
    decreases n
  {
    if n == 0 {
      assert s.execs == s.execs[exec := s.execs[exec]];
    } else {
      var t := Next(s, NextWrite(exec), planner);
      RunAlone(t, exec, n - 1, planner);
      RunCons(s, NextWrite(exec), Repeat(NextWrite(exec), n - 1), planner);
      WroteMore(s, exec, n - 1, planner);
    }
  }

  function Repeat(e: Event, n: nat): seq<Event> { if n == 0 then [] else [e] + Repeat(e, n - 1) }

  lemma {:induction false} AppliedCons(rows: Rows, w: Write, rest: seq<Write>)
    ensures Applied(rows, [w] + rest) == Applied(Insert(rows, w), rest)
  {
    if rest == [] {
      assert ([w] + rest)[..0] == [] && [w] + rest == [w];
      assert Applied(rows, [w]) == Insert(Applied(rows, [w][..0]), w);
    } else {
      AppliedCons(rows, w, rest[..|rest| - 1]);
      assert ([w] + rest)[..|rest|] == [w] + rest[..|rest| - 1];
    }
  }
}
