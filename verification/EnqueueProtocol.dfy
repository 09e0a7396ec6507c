/**
 * POST /api/v1/scrape-jobs with an idempotency key (apps/api-express/src/routes/scrapeJobs.js): look the key up,
 * create the row, recover when another request created it first, add the job to the queue, write the audit record,
 * answer. Requests run concurrently, interrupted at every await, and any of them may die or lose a reply at any point.
 */
module EnqueueProtocol {
  import opened Basics
  import opened Strings

  type Key = string
  type JobId = string
  type Req = nat

  /** The key of a request: the trimmed header unless it is empty, else the body's field unless it is blank. */
  function ResolveIdempotencyKey(header: Option<string>, body: Option<string>): (key: Option<Key>)
    ensures key.Some? ==> key.value != "" && Trim(key.value) == key.value
    ensures key.None? <==> (header.None? || Trim(header.value) == "") && (body.None? || Trim(body.value) == "")
  {
    if header.Some? && Trim(header.value) != "" then
      TrimTwice(header.value);
      Some(Trim(header.value))
    else if body.Some? && Trim(body.value) != "" then
      TrimTwice(body.value);
      Some(Trim(body.value))
    else None
  }

  /** The header decides whenever it says something, whatever the body holds; only else does the body. */
  lemma HeaderWins(header: Option<string>, body: Option<string>)
    ensures var key := ResolveIdempotencyKey(header, body);
            && (key.Some? <==> Given(header) || Given(body))
            && (Given(header) ==> TrimmedFrom(key.value, header.value))
            && (!Given(header) && Given(body) ==> TrimmedFrom(key.value, body.value))
  {
    GivenExactly(header);
    GivenExactly(body);
  }

  datatype Answer = Accepted(job: JobId, reused: bool) | Refused

  datatype Phase =
    | Looking
    | Creating
    | Recovering
    | Enqueuing(job: JobId)
    | Auditing(job: JobId) // after the add, whatever became of it; the audit record's own failures are swallowed
    | Done(answer: Answer)

  datatype Request = Request(key: Option<Key>, phase: Phase)

  /** A job row; the creating request is kept for the proofs. */
  datatype Row = Row(key: Option<Key>, creator: Req)

  /** The table with its unique index on the key, the adds made to the queue, and the requests. */
  datatype State = State(rows: map<JobId, Row>, index: map<Key, JobId>, adds: multiset<JobId>, reqs: map<Req, Request>)

  /** What became of a database write: done, done but the reply was lost, or not done. */
  datatype Fate = Landed | ReplyLost | NotDone

  datatype Event =
    | Arrive(r: Req, key: Option<Key>)
    | Find(r: Req)
    | Create(r: Req, id: JobId, fate: Fate)
    | Recover(r: Req)
    | Enqueue(r: Req, landed: bool)
    | Audit(r: Req)
    | Abort(r: Req)

  predicate Enabled(s: State, e: Event) {
    match e
    case Arrive(r, _) => r !in s.reqs
    case Find(r) => r in s.reqs && s.reqs[r].phase == Looking && s.reqs[r].key.Some?
    case Create(r, _, _) => r in s.reqs && s.reqs[r].phase == Creating
    case Recover(r) => r in s.reqs && s.reqs[r].phase == Recovering && s.reqs[r].key.Some?
    case Enqueue(r, _) => r in s.reqs && s.reqs[r].phase.Enqueuing?
    case Audit(r) => r in s.reqs && s.reqs[r].phase.Auditing?
    case Abort(r) => r in s.reqs && !s.reqs[r].phase.Done?
  }

  function Moved(s: State, r: Req, p: Phase): State
    requires r in s.reqs
  {
    s.(reqs := s.reqs[r := s.reqs[r].(phase := p)])
  }

  /** P2002: the id or the key is taken. */
  predicate Taken(s: State, id: JobId, key: Option<Key>) { id in s.rows || (key.Some? && key.value in s.index) }

  function Inserted(s: State, id: JobId, key: Option<Key>, r: Req): State {
    s.(rows := s.rows[id := Row(key, r)], index := if key.Some? then s.index[key.value := id] else s.index)
  }

  function Next(s: State, e: Event): State
    requires Enabled(s, e)
  {
    match e
    case Arrive(r, key) => s.(reqs := s.reqs[r := Request(key, if key.Some? then Looking else Creating)])
    case Find(r) =>
      var key := s.reqs[r].key.value;
      if key in s.index then Moved(s, r, Done(Accepted(s.index[key], true))) else Moved(s, r, Creating)
    case Create(r, id, fate) =>
      var key := s.reqs[r].key;
      if fate == NotDone then Moved(s, r, Done(Refused))
      else if Taken(s, id, key) then Moved(s, r, if fate == Landed && key.Some? then Recovering else Done(Refused))
      else Moved(Inserted(s, id, key, r), r, if fate == Landed then Enqueuing(id) else Done(Refused))
    case Recover(r) =>
      var key := s.reqs[r].key.value;
      if key in s.index then Moved(s, r, Done(Accepted(s.index[key], true))) else Moved(s, r, Done(Refused))
    case Enqueue(r, landed) =>
      var id := s.reqs[r].phase.job;
      Moved(if landed then s.(adds := s.adds + multiset{id}) else s, r, Auditing(id))
    case Audit(r) => Moved(s, r, Done(Accepted(s.reqs[r].phase.job, false)))
    case Abort(r) => Moved(s, r, Done(Refused))
  }

  function Initial(): State { State(map[], map[], multiset{}, map[]) }

  ghost predicate IsRun(s: State, es: seq<Event>)
    decreases |es|
  {
    es == [] || (Enabled(s, es[0]) && IsRun(Next(s, es[0]), es[1..]))
  }

  ghost function After(s: State, es: seq<Event>): State
    requires IsRun(s, es)
    decreases |es|
  {
    if es == [] then s else After(Next(s, es[0]), es[1..])
  }

  // ------------------------------------------------------------------ invariant

  ghost predicate IndexExact(s: State) {
    && (forall key :: key in s.index ==> s.index[key] in s.rows && s.rows[s.index[key]].key == Some(key))
    && (forall id :: id in s.rows && s.rows[id].key.Some? ==>
        s.rows[id].key.value in s.index && s.index[s.rows[id].key.value] == id)
  }

  ghost predicate PhaseTrue(s: State, r: Req)
    requires r in s.reqs
  {
    var q := s.reqs[r];
    match q.phase
    case Looking => q.key.Some?
    case Creating => true
    case Recovering => q.key.Some?
    case Enqueuing(id) => id in s.rows && s.rows[id] == Row(q.key, r) && id !in s.adds
    case Auditing(id) => id in s.rows && s.rows[id] == Row(q.key, r)
    case Done(Accepted(id, reused)) =>
      id in s.rows && s.rows[id].key == q.key && (if reused then q.key.Some? else s.rows[id].creator == r)
    case Done(Refused) => true
  }

  /** A row's creator has moved on to adding it to the queue, and has created no other row. */
  ghost predicate CreatorTrue(s: State, id: JobId) {
    && id in s.rows
    && var r := s.rows[id].creator;
    && PastCreate(s, r)
    && (forall other :: other in s.rows && s.rows[other].creator == r ==> other == id)
  }

  ghost predicate AddsTrue(s: State) { forall id :: id in s.adds ==> id in s.rows && s.adds[id] == 1 }

  ghost predicate Inv(s: State) {
    && IndexExact(s) && AddsTrue(s)
    && (forall r :: r in s.reqs ==> PhaseTrue(s, r))
    && (forall id :: id in s.rows ==> CreatorTrue(s, id))
  }

  ghost predicate RowsStay(s: State, t: State) {
    forall id :: id in s.rows ==> id in t.rows && t.rows[id] == s.rows[id]
  }

  lemma StepRowsStay(s: State, e: Event)
    requires Enabled(s, e)
    ensures RowsStay(s, Next(s, e))
  {
  }

  lemma OwnPhaseTrue(s: State, e: Event)
    requires IndexExact(s) && AddsTrue(s) && Enabled(s, e) && (e.r in s.reqs ==> PhaseTrue(s, e.r))
    ensures PhaseTrue(Next(s, e), e.r)
  {
  }

  /** A request that does not move keeps its phase true: only the creator of a row adds it to the queue. */
  lemma OtherPhaseTrue(s: State, e: Event, r: Req)
    requires Enabled(s, e) && r != e.r && r in s.reqs && PhaseTrue(s, r) && (e.r in s.reqs ==> PhaseTrue(s, e.r))
    ensures r in Next(s, e).reqs && Next(s, e).reqs[r] == s.reqs[r] && PhaseTrue(Next(s, e), r)
  {
    StepRowsStay(s, e);
  }

  lemma StepKeepsPhases(s: State, e: Event)
    requires Inv(s) && Enabled(s, e)
    ensures forall r :: r in Next(s, e).reqs ==> PhaseTrue(Next(s, e), r)
  {
    OwnPhaseTrue(s, e);
    forall r | r in Next(s, e).reqs && r != e.r ensures PhaseTrue(Next(s, e), r) { OtherPhaseTrue(s, e, r); }
  }

  predicate PastAdd(p: Phase) { p.Auditing? || p.Done? }

  predicate PastCreate(s: State, r: Req) { r in s.reqs && (s.reqs[r].phase.Enqueuing? || PastAdd(s.reqs[r].phase)) }

  lemma StepsOnly(s: State, e: Event)
    requires Enabled(s, e)
    ensures forall r :: PastCreate(s, r) ==> PastCreate(Next(s, e), r)
    ensures forall id :: id in Next(s, e).rows && id !in s.rows ==>
            Next(s, e).rows[id].creator == e.r && !PastCreate(s, e.r)
  {
  }

  /** A row that was there keeps its creator past the create. */
  lemma OldCreatorTrue(s: State, e: Event, id: JobId)
    requires Inv(s) && Enabled(s, e) && id in s.rows
    ensures CreatorTrue(Next(s, e), id)
  {
    StepRowsStay(s, e);
    StepsOnly(s, e);
    assert CreatorTrue(s, id);
    CreatorCarries(s, Next(s, e), e.r, id);
  }

  lemma CreatorCarries(s: State, t: State, mover: Req, id: JobId)
    requires id in s.rows && CreatorTrue(s, id) && RowsStay(s, t) && (forall r :: PastCreate(s, r) ==> PastCreate(t, r))
    requires forall other :: other in t.rows && other !in s.rows ==>
             t.rows[other].creator == mover && !PastCreate(s, mover)
    ensures CreatorTrue(t, id)
  {
  }

  lemma CreatedNothing(s: State, r: Req)
    requires Inv(s) && !PastCreate(s, r)
    ensures forall other :: other in s.rows ==> s.rows[other].creator != r
  {
    forall other | other in s.rows ensures s.rows[other].creator != r { assert CreatorTrue(s, other); }
  }

  lemma NewRowIsCreated(s: State, e: Event, id: JobId)
    requires Enabled(s, e) && id in Next(s, e).rows && id !in s.rows
    ensures e.Create? && id == e.id && e.r in s.reqs && !PastCreate(s, e.r) && PastCreate(Next(s, e), e.r)
    ensures Next(s, e).rows == s.rows[id := Row(s.reqs[e.r].key, e.r)]
  {
  }

  lemma NewCreatorTrue(s: State, e: Event, id: JobId)
    requires Inv(s) && Enabled(s, e) && id in Next(s, e).rows && id !in s.rows
    ensures CreatorTrue(Next(s, e), id)
  {
    NewRowIsCreated(s, e, id);
    CreatedNothing(s, e.r);
  }

  lemma InsertKeepsIndex(s: State, id: JobId, key: Option<Key>, r: Req)
    requires IndexExact(s) && !Taken(s, id, key)
    ensures IndexExact(Inserted(s, id, key, r))
  {
  }

  lemma StepKeepsIndex(s: State, e: Event)
    requires IndexExact(s) && Enabled(s, e)
    ensures IndexExact(Next(s, e))
  {
    if e.Create? && e.fate != NotDone && !Taken(s, e.id, s.reqs[e.r].key) {
      InsertKeepsIndex(s, e.id, s.reqs[e.r].key, e.r);
    } else {
      assert Next(s, e).rows == s.rows && Next(s, e).index == s.index;
    }
  }

  lemma StepKeepsAdds(s: State, e: Event)
    requires AddsTrue(s) && Enabled(s, e) && (e.r in s.reqs ==> PhaseTrue(s, e.r))
    ensures AddsTrue(Next(s, e))
  {
    StepRowsStay(s, e);
  }

  lemma StepKeepsInv(s: State, e: Event)
    requires Inv(s) && Enabled(s, e)
    ensures Inv(Next(s, e))
  {
    StepKeepsPhases(s, e);
    StepKeepsIndex(s, e);
    StepKeepsAdds(s, e);
    forall id | id in Next(s, e).rows ensures CreatorTrue(Next(s, e), id) {
      if id in s.rows { OldCreatorTrue(s, e, id); } else { NewCreatorTrue(s, e, id); }
    }
  }

  lemma {:induction false} RunKeepsInv(s: State, es: seq<Event>)
    requires Inv(s) && IsRun(s, es)
    ensures Inv(After(s, es))
    decreases |es|
  {
    if es != [] {
      StepKeepsInv(s, es[0]);
      RunKeepsInv(Next(s, es[0]), es[1..]);
    }
  }

  // ------------------------------------------------------------------ main results

  /** In s, request r was answered 202 with the given job. */
  predicate Got(s: State, r: Req, id: JobId) {
    r in s.reqs && s.reqs[r].phase.Done? && s.reqs[r].phase.answer.Accepted? && s.reqs[r].phase.answer.job == id
  }

  predicate GotFresh(s: State, r: Req, id: JobId) { Got(s, r, id) && !s.reqs[r].phase.answer.reused }

  /**
   * However many requests with one key run at once, there is at most one row and one add to the queue for the key,
   * every 202 answer carries that row's id, and at most one of the answers says the job is new.
   */
  lemma OneJobPerKey(es: seq<Event>, key: Key)
    requires IsRun(Initial(), es)
    ensures var s := After(Initial(), es);
            && (forall a, b :: a in s.rows && b in s.rows && s.rows[a].key == s.rows[b].key == Some(key) ==> a == b)
            && (forall a :: a in s.rows && s.rows[a].key == Some(key) ==> s.adds[a] <= 1)
            && (forall q, r, a, b :: Got(s, q, a) && Got(s, r, b) && s.reqs[q].key == s.reqs[r].key == Some(key) ==>
                a == b && a in s.rows && s.rows[a].key == Some(key))
            && (forall q, r, a, b ::
                GotFresh(s, q, a) && GotFresh(s, r, b) && s.reqs[q].key == s.reqs[r].key == Some(key) ==> q == r)
  {
    RunKeepsInv(Initial(), es);
    var s := After(Initial(), es);
    forall r, a | Got(s, r, a)
      ensures a in s.rows && s.rows[a].key == s.reqs[r].key && (GotFresh(s, r, a) ==> s.rows[a].creator == r)
    {
      assert PhaseTrue(s, r);
    }
    forall a | a in s.rows && s.rows[a].key == Some(key) ensures s.adds[a] <= 1 && a == s.index[key] {
      assert a in s.adds || s.adds[a] == 0;
    }
  }

  predicate TurnedDown(s: State, r: Req) { r in s.reqs && s.reqs[r].phase == Done(Refused) }

  /**
   * The step turns the request down: it dies, its insert fails or loses its reply, its random id
   * is taken and it has no key to recover by, or the key it recovers by has no job.
   */
  predicate TurnsDown(s: State, e: Event, r: Req)
    requires Enabled(s, e)
  {
    e.r == r &&
    match e
    case Abort(_) => true
    case Create(_, id, fate) => fate != Landed || (s.reqs[r].key.None? && id in s.rows)
    case Recover(_) => s.reqs[r].key.value !in s.index
    case _ => false
  }

  ghost predicate EverTurnedDown(s: State, es: seq<Event>, r: Req)
    requires IsRun(s, es)
    decreases |es|
  {
    es != [] && (TurnsDown(s, es[0], r) || EverTurnedDown(Next(s, es[0]), es[1..], r))
  }

  lemma StepTurnsDownExactly(s: State, e: Event, r: Req)
    requires Enabled(s, e)
    ensures TurnedDown(Next(s, e), r) <==> TurnedDown(s, r) || TurnsDown(s, e, r)
  {
  }

  /** Over every run a request is refused exactly by one of these; being the second with its key is none of them. */
  lemma {:induction false} RefusedExactly(s: State, es: seq<Event>, r: Req)
    requires IsRun(s, es)
    ensures TurnedDown(After(s, es), r) <==> TurnedDown(s, r) || EverTurnedDown(s, es, r)
    decreases |es|
  {
    if es != [] {
      StepTurnsDownExactly(s, es[0], r);
      RefusedExactly(Next(s, es[0]), es[1..], r);
    }
  }

  /** Without a key every accepted request has a job of its own. */
  lemma UnkeyedRequestsOwnTheirJobs(es: seq<Event>, q: Req, r: Req, a: JobId, b: JobId)
    requires IsRun(Initial(), es) && q != r
    requires var s := After(Initial(), es); Got(s, q, a) && Got(s, r, b) && s.reqs[q].key == None == s.reqs[r].key
    ensures a != b
  {
    RunKeepsInv(Initial(), es);
    assert PhaseTrue(After(Initial(), es), q) && PhaseTrue(After(Initial(), es), r);
  }

  /** The request that created the job's row is past its add, answered or not. */
  ghost predicate CreatorDone(s: State, id: JobId) {
    id in s.rows && s.rows[id].creator in s.reqs && PastAdd(s.reqs[s.rows[id].creator].phase)
  }

  lemma CreatorStaysDone(s: State, e: Event, id: JobId)
    requires Inv(s) && Enabled(s, e) && CreatorDone(s, id)
    ensures CreatorDone(Next(s, e), id) && Next(s, e).adds[id] == s.adds[id] && Next(s, e).rows[id] == s.rows[id]
  {
    StepRowsStay(s, e);
    DoneStaysDone(s, e, s.rows[id].creator);
    AddsOnlyOwn(s, e, id);
  }

  lemma DoneStaysDone(s: State, e: Event, r: Req)
    requires Enabled(s, e) && r in s.reqs && PastAdd(s.reqs[r].phase)
    ensures r in Next(s, e).reqs && PastAdd(Next(s, e).reqs[r].phase)
  {
  }

  lemma AddsOnlyOwn(s: State, e: Event, id: JobId)
    requires Enabled(s, e) && (e.r in s.reqs ==> PhaseTrue(s, e.r)) && CreatorDone(s, id)
    ensures Next(s, e).adds[id] == s.adds[id]
  {
  }

  /** Only the creator of a row ever adds it to the queue: once that request is past its add, nothing does. */
  lemma {:induction false} RetriesNeverEnqueue(s: State, es: seq<Event>, id: JobId)
    requires Inv(s) && IsRun(s, es) && CreatorDone(s, id)
    ensures After(s, es).adds[id] == s.adds[id] && id in After(s, es).rows && After(s, es).rows[id] == s.rows[id]
    decreases |es|
  {
    if es != [] {
      StepKeepsInv(s, es[0]);
      CreatorStaysDone(s, es[0], id);
      RetriesNeverEnqueue(Next(s, es[0]), es[1..], id);
    }
  }

  /** The job was handed to the queue. */
  predicate Queued(s: State, id: JobId) { id in s.adds }

  /** The one outcome of the creator's own add, as far as it has one: true when the queue took it. */
  function OwnAdd(e: Event, creator: Req): seq<bool> { if e.Enqueue? && e.r == creator then [e.landed] else [] }

  function OwnAdds(es: seq<Event>, creator: Req): seq<bool> {
    if es == [] then [] else OwnAdd(es[0], creator) + OwnAdds(es[1..], creator)
  }

  lemma OnlyAddsQueue(s: State, e: Event)
    requires Enabled(s, e) && !e.Enqueue?
    ensures Next(s, e).adds == s.adds
  {
  }

  lemma StepQueuesExactly(s: State, e: Event, id: JobId)
    requires Inv(s) && Enabled(s, e) && id in s.rows
    ensures Queued(Next(s, e), id) <==> Queued(s, id) || OwnAdd(e, s.rows[id].creator) == [true]
  {
    if e.Enqueue? {
      assert PhaseTrue(s, e.r) && CreatorTrue(s, id);
    } else {
      OnlyAddsQueue(s, e);
    }
  }

  /** Who has added a row to the queue creates no further one. */
  lemma {:induction false} LaterRowsByOthers(s: State, es: seq<Event>, id: JobId, r: Req)
    requires IsRun(s, es) && PastCreate(s, r) && id !in s.rows && id in After(s, es).rows
    ensures After(s, es).rows[id].creator != r
    decreases |es|
  {
    if es != [] {
      StepsOnly(s, es[0]);
      if id in Next(s, es[0]).rows {
        RowsStayInRun(Next(s, es[0]), es[1..], id);
      } else {
        LaterRowsByOthers(Next(s, es[0]), es[1..], id, r);
      }
    }
  }

  lemma {:induction false} RowsStayInRun(s: State, es: seq<Event>, id: JobId)
    requires IsRun(s, es) && id in s.rows
    ensures id in After(s, es).rows && After(s, es).rows[id] == s.rows[id]
    decreases |es|
  {
    if es != [] {
      StepRowsStay(s, es[0]);
      RowsStayInRun(Next(s, es[0]), es[1..], id);
    }
  }

  /** A step before the row exists is no add of it, nor an add by its creator. */
  /** A job without a row is in no queue, before the step and after it. */
  lemma NoRowNotQueued(s: State, e: Event, id: JobId)
    requires Inv(s) && Enabled(s, e) && id !in s.rows
    ensures !Queued(s, id) && !Queued(Next(s, e), id)
  {
    assert AddsTrue(s);
    if e.Enqueue? { assert PhaseTrue(s, e.r); }
  }

  lemma EarlyStep(s: State, e: Event, rest: seq<Event>, id: JobId)
    requires Inv(s) && Enabled(s, e) && IsRun(Next(s, e), rest) && id !in s.rows && id in After(Next(s, e), rest).rows
    ensures !Queued(s, id) && !Queued(Next(s, e), id) && OwnAdd(e, After(Next(s, e), rest).rows[id].creator) == []
  {
    NoRowNotQueued(s, e, id);
    if e.Enqueue? {
      StepsOnly(s, e);
      LaterRowsByOthers(Next(s, e), rest, id, e.r);
    }
  }

  /** Over every run a job reaches the queue exactly by its creator's own add, whatever the other requests do. */
  lemma {:induction false} QueuedExactly(s: State, es: seq<Event>, id: JobId)
    requires Inv(s) && IsRun(s, es) && id in After(s, es).rows
    ensures Queued(After(s, es), id) <==> Queued(s, id) || true in OwnAdds(es, After(s, es).rows[id].creator)
    decreases |es|
  {
    if es != [] {
      StepKeepsInv(s, es[0]);
      QueuedExactly(Next(s, es[0]), es[1..], id);
      if id in s.rows {
        StepRowsStay(s, es[0]);
        RowsStayInRun(Next(s, es[0]), es[1..], id);
        StepQueuesExactly(s, es[0], id);
      } else {
        EarlyStep(s, es[0], es[1..], id);
      }
    }
  }

  /**
   * Once the creator is past its add the question is settled: after every continuation the job is in the queue, once,
   * if the creator's own add landed, and it is not if that add did not.
   */
  lemma QueuedIffOwnAddLanded(es: seq<Event>, more: seq<Event>, id: JobId)
    requires IsRun(Initial(), es) && CreatorDone(After(Initial(), es), id) && IsRun(After(Initial(), es), more)
    ensures var s := After(Initial(), es);
            After(s, more).adds[id] == if true in OwnAdds(es, s.rows[id].creator) then 1 else 0
  {
    var s := After(Initial(), es);
    RunKeepsInv(Initial(), es);
    QueuedExactly(Initial(), es, id);
    RetriesNeverEnqueue(s, more, id);
    assert AddsTrue(s);
  }

  lemma {:induction false} RunsJoin(s: State, a: seq<Event>, b: seq<Event>)
    requires IsRun(s, a) && IsRun(After(s, a), b)
    ensures IsRun(s, a + b) && After(s, a + b) == After(After(s, a), b)
    decreases |a|
  {
    if a == [] {
      assert a + b == b;
    } else {
      RunsJoin(Next(s, a[0]), a[1..], b);
      assert (a + b)[1..] == a[1..] + b;
    }
  }

  lemma OneStep(s: State, e: Event)
    requires Enabled(s, e)
    ensures IsRun(s, [e]) && After(s, [e]) == Next(s, e)
  {
    assert [e][1..] == [];
    assert IsRun(Next(s, e), []);
  }

  lemma Extend(es: seq<Event>, e: Event)
    requires IsRun(Initial(), es) && Enabled(After(Initial(), es), e)
    ensures IsRun(Initial(), es + [e]) && After(Initial(), es + [e]) == Next(After(Initial(), es), e)
  {
    OneStep(After(Initial(), es), e);
    RunsJoin(Initial(), es, [e]);
  }

  lemma FailedAddRun(key: Key, id: JobId) returns (es: seq<Event>)
    ensures IsRun(Initial(), es)
    ensures After(Initial(), es) ==
            State(map[id := Row(Some(key), 0)], map[key := id], multiset{},
                  map[0 := Request(Some(key), Done(Accepted(id, false)))])
  {
    es := [];
    Extend(es, Arrive(0, Some(key)));
    es := es + [Arrive(0, Some(key))];
    Extend(es, Find(0));
    es := es + [Find(0)];
    Extend(es, Create(0, id, Landed));
    es := es + [Create(0, id, Landed)];
    Extend(es, Enqueue(0, false));
    es := es + [Enqueue(0, false)];
    Extend(es, Audit(0));
    es := es + [Audit(0)];
  }

  /**
   * So idempotency does not make the add reliable: when the first request's add fails, a retry with the same key is
   * accepted with the same job, and the job is not in the queue and never will be.
   */
  lemma AcceptedRetryMayStayUnqueued(key: Key, id: JobId) returns (es: seq<Event>)
    ensures IsRun(Initial(), es) && Got(After(Initial(), es), 0, id) && Got(After(Initial(), es), 1, id)
    ensures forall more :: IsRun(After(Initial(), es), more) ==> After(After(Initial(), es), more).adds[id] == 0
  {
    es := FailedAddRun(key, id);
    Extend(es, Arrive(1, Some(key)));
    es := es + [Arrive(1, Some(key))];
    Extend(es, Find(1));
    es := es + [Find(1)];
    RunKeepsInv(Initial(), es);
    var s := After(Initial(), es);
    forall more | IsRun(s, more) ensures After(s, more).adds[id] == 0 { RetriesNeverEnqueue(s, more, id); }
  }

  // ------------------------------------------------------------------ the handler, run without interference

  class JobStore {
    var rows: map<JobId, Option<Key>>
    var index: map<Key, JobId>
    var queue: multiset<JobId>

    ghost predicate Valid() reads this {
      && (forall key :: key in index ==> index[key] in rows && rows[index[key]] == Some(key))
      && (forall id :: id in rows && rows[id].Some? ==> rows[id].value in index && index[rows[id].value] == id)
    }

    constructor () ensures Valid() && rows == map[] && queue == multiset{} {
      rows, index, queue := map[], map[], multiset{};
    }

    method InsertRow(id: JobId, key: Option<Key>) returns (created: bool)
      requires Valid()
      modifies this
      ensures Valid() && queue == old(queue)
      ensures created <==> id !in old(rows) && (key.Some? ==> key.value !in old(index))
      ensures rows == if created then old(rows)[id := key] else old(rows)
      ensures index == if created && key.Some? then old(index)[key.value := id] else old(index)
    {
      created := id !in rows && (key.Some? ==> key.value !in index);
      if created {
        rows := rows[id := key];
        if key.Some? { index := index[key.value := id]; }
      }
    }

    /**
     * The POST handler, with at most one rival whose row lands between this request's lookup and its create: a known
     * key answers with its job and changes nothing, and otherwise there is one new row and at most one add.
     */
    method Post(key: Option<Key>, id: JobId, rival: Option<JobId>, addLands: bool) returns (answer: Answer)
      requires Valid() && (rival.Some? ==> rival.value !in rows && key.Some?)
      modifies this
      ensures Valid()
      ensures key.Some? && key.value in old(index) ==>
              answer == Accepted(old(index)[key.value], true) && rows == old(rows) && queue == old(queue)
      ensures key.Some? && key.value !in old(index) && rival.Some? ==>
              answer == Accepted(rival.value, true) && rows == old(rows)[rival.value := key] && queue == old(queue)
      ensures (key.Some? ==> key.value !in old(index)) && rival.None? ==>
              if id in old(rows) then answer == Refused && rows == old(rows) && queue == old(queue)
              else && answer == Accepted(id, false) && rows == old(rows)[id := key]
                   && queue == old(queue) + (if addLands then multiset{id} else multiset{})
      ensures key.Some? && answer.Accepted? ==> key.value in index && index[key.value] == answer.job
    {
      if key.Some? && key.value in index { return Accepted(index[key.value], true); }
      if rival.Some? { var won := InsertRow(rival.value, key); }
      var created := InsertRow(id, key);
      if created {
        if addLands { queue := queue + multiset{id}; }
        return Accepted(id, false);
      }
      if key.Some? && key.value in index { return Accepted(index[key.value], true); }
      answer := Refused;
    }
  }
}
