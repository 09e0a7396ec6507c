/**
 * One scrape job and the persist child it waits for (apps/worker-ingest/src/index.js). The child's queue id is fixed
 * by the job, and the queue keeps finished and failed children for a day or a week, so a master that runs the job
 * again while it keeps one claims the row and adds nothing. A delivery that throws owes the row a failure mark, which
 * its worker's failed handler writes later; a process that dies owes nothing. The steps: a master attempt, which may
 * throw before its claim, or throw or die after it; the read and the end of a delivery of the child, or its process
 * dying; a failure mark that is owed; a replay of the child, and the queue forgetting a child it kept. Attempts of the
 * master are not counted: there may always be another one.
 */
module StuckJobs {
  import J = IngestJob

  type Job = J.Job
  type Time = J.Time

  /** What the child queue holds under the persist child's id; a delivery that read a finished job skips its work. */
  datatype Child = Absent | Waiting(left: nat) | Active(skip: bool, left: nat) | Completed | Dead

  /** owed counts the deliveries that failed and whose handlers have not run. */
  datatype State = State(row: Job, child: Child, owed: nat)

  datatype Event =
    | MasterClaims(at: Time, landed: bool, throws: bool) // landed: the child's add was executed
    | MasterThrows                                       // before the claim
    | ChildReads(ok: bool)
    | ChildEnds(ok: bool, at: Time)
    | ChildStalls                                        // its process died; the queue hands it out again
    | Marks(at: Time, message: string)
    | ReplayChild
    | Forgets

  /** New children get this many attempts. */
  const ATTEMPTS: nat := 5

  predicate Claimable(j: Job) { j.status == J.Queued || j.status == J.Failed }

  predicate Enabled(s: State, e: Event) {
    match e
    case MasterClaims(_, _, _) => Claimable(s.row)
    case MasterThrows => true
    case ChildReads(_) => s.child.Waiting? && s.child.left > 0
    case ChildEnds(_, _) => s.child.Active? && s.child.left > 0
    case ChildStalls => s.child.Active?
    case Marks(_, _) => s.owed > 0
    case ReplayChild => true
    case Forgets => s.child.Completed? || s.child.Dead?
  }

  /** Queue.add under the child's id: nothing happens while the queue still keeps one. */
  function Added(c: Child): Child { if c == Absent then Waiting(ATTEMPTS) else c }

  /** A failed delivery leaves its next attempt, or a dead child, and a mark to be written. */
  function FailedDelivery(s: State, left: nat): State
    requires left > 0
  {
    State(s.row, if left > 1 then Waiting(left - 1) else Dead, s.owed + 1)
  }

  function Next(s: State, e: Event): State
    requires Enabled(s, e)
  {
    match e
    case MasterClaims(at, landed, throws) =>
      State(J.ClaimRow(s.row, at), if landed then Added(s.child) else s.child, s.owed + if throws then 1 else 0)
    case MasterThrows => s.(owed := s.owed + 1)
    case ChildReads(ok) =>
      if ok then s.(child := Active(s.row.status == J.Succeeded, s.child.left)) else FailedDelivery(s, s.child.left)
    case ChildEnds(ok, at) =>
      if s.child.skip then s.(child := Completed)
      else if ok then s.(row := J.SucceedRow(s.row, at), child := Completed)
      else FailedDelivery(s, s.child.left)
    case ChildStalls => s.(child := Waiting(s.child.left))
    case Marks(at, message) => s.(row := J.FailRow(s.row, at, message), owed := s.owed - 1)
    case ReplayChild => s.(child := Added(s.child))
    case Forgets => s.(child := Absent)
  }

  ghost predicate IsRun(s: State, es: seq<Event>)
    decreases |es|
  {
    es == [] || (Enabled(s, es[0]) && IsRun(Next(s, es[0]), es[1..]))
  }

  ghost function After(s: State, es: seq<Event>): State
    requires IsRun(s, es)
    decreases |es|
  {
    if es == [] then s else After(Next(s, es[0]), es[1..])
  }

  /** A child in play has attempts left. */
  predicate Inv(s: State) { (s.child.Waiting? || s.child.Active?) ==> s.child.left > 0 }

  lemma {:induction false} RunKeepsInv(s: State, es: seq<Event>)
    requires Inv(s) && IsRun(s, es)
    ensures Inv(After(s, es))
    decreases |es|
  {
    if es != [] { RunKeepsInv(Next(s, es[0]), es[1..]); }
  }

  // ------------------------------------------------------------------ when a job is stuck

  /** A delivery that will do the work is waiting or under way. */
  predicate InPlay(c: Child) { c.Waiting? || (c.Active? && !c.skip) }

  predicate Finished(s: State) { s.row.status == J.Succeeded }

  /** A master attempt can get to its add: the row may be claimed, or will be once a mark that is owed is written. */
  predicate CanBeClaimed(s: State) { Claimable(s.row) || s.owed > 0 }

  /**
   * Not finished, no delivery in play, and none will be: the queue keeps a child that does nothing any more, or the
   * row is running, with no child and no mark that is owed.
   */
  predicate Stuck(s: State) {
    !Finished(s) && !InPlay(s.child) && (s.child == Absent ==> !CanBeClaimed(s))
  }

  /** What the queue workers do when nothing new happens to them: attempts, deliveries and the marks they owe. */
  predicate WorkerStep(e: Event) { e.MasterClaims? || e.ChildReads? || e.ChildEnds? || e.Marks? }

  predicate WorkersOnly(es: seq<Event>) { forall i :: 0 <= i < |es| ==> WorkerStep(es[i]) }

  /**
   * The steps that free a stuck job. With no child: a replay of the child, or a master attempt that throws before its
   * claim and so owes a mark. With a child the queue keeps: that the queue forgets it, if the row can be claimed. With
   * a delivery that will skip: that its process dies.
   */
  predicate Frees(s: State, e: Event) {
    match s.child
    case Absent => e.ReplayChild? || e.MasterThrows?
    case Active(_, _) => e.ChildStalls?
    case _ => e.Forgets? && CanBeClaimed(s)
  }

  lemma StuckStepExactly(s: State, e: Event)
    requires Inv(s) && Stuck(s) && Enabled(s, e)
    ensures Stuck(Next(s, e)) <==> !Frees(s, e)
  {
  }

  ghost predicate NeverFrees(s: State, es: seq<Event>)
    requires IsRun(s, es)
    decreases |es|
  {
    es == [] || (!Frees(s, es[0]) && NeverFrees(Next(s, es[0]), es[1..]))
  }

  /** Until such a step comes, a stuck job stays stuck, through every run. */
  lemma {:induction false} StuckUntilFreed(s: State, es: seq<Event>)
    requires Inv(s) && Stuck(s) && IsRun(s, es) && NeverFrees(s, es)
    ensures Stuck(After(s, es))
    decreases |es|
  {
    if es != [] {
      StuckStepExactly(s, es[0]);
      StuckUntilFreed(Next(s, es[0]), es[1..]);
    }
  }

  lemma {:induction false} WorkersFreeNothing(s: State, es: seq<Event>)
    requires IsRun(s, es) && WorkersOnly(es)
    ensures NeverFrees(s, es)
    decreases |es|
  {
    if es != [] { WorkersFreeNothing(Next(s, es[0]), es[1..]); }
  }

  /** The queue workers can still bring the job to success. */
  ghost predicate CanFinish(s: State) { exists es :: IsRun(s, es) && WorkersOnly(es) && Finished(After(s, es)) }

  lemma StepThenFinish(s: State, e: Event)
    requires Enabled(s, e) && WorkerStep(e) && CanFinish(Next(s, e))
    ensures CanFinish(s)
  {
    var es :| IsRun(Next(s, e), es) && WorkersOnly(es) && Finished(After(Next(s, e), es));
    var all := [e] + es;
    assert all[1..] == es;
    assert IsRun(s, all) && WorkersOnly(all) && Finished(After(s, all));
  }

  lemma FinishedCanFinish(s: State)
    requires Finished(s)
    ensures CanFinish(s)
  {
    assert IsRun(s, []) && WorkersOnly([]) && Finished(After(s, []));
  }

  lemma DeliveryFinishes(s: State)
    requires Inv(s) && InPlay(s.child)
    ensures CanFinish(s)
    decreases s.child.Waiting?
  {
    if Finished(s) {
      FinishedCanFinish(s);
    } else if s.child.Active? {
      FinishedCanFinish(Next(s, ChildEnds(true, 0)));
      StepThenFinish(s, ChildEnds(true, 0));
    } else {
      DeliveryFinishes(Next(s, ChildReads(true)));
      StepThenFinish(s, ChildReads(true));
    }
  }

  lemma ClaimFinishes(s: State)
    requires s.child == Absent && CanBeClaimed(s)
    ensures CanFinish(s)
    decreases !Claimable(s.row)
  {
    if Claimable(s.row) {
      DeliveryFinishes(Next(s, MasterClaims(0, true, false)));
      StepThenFinish(s, MasterClaims(0, true, false));
    } else {
      ClaimFinishes(Next(s, Marks(0, "")));
      StepThenFinish(s, Marks(0, ""));
    }
  }

  /** The queue workers can bring a job to success by themselves exactly when it is not stuck. */
  lemma StuckExactly(s: State)
    requires Inv(s)
    ensures CanFinish(s) <==> !Stuck(s)
  {
    if Stuck(s) {
      forall es | IsRun(s, es) && WorkersOnly(es) ensures !Finished(After(s, es)) {
        WorkersFreeNothing(s, es);
        StuckUntilFreed(s, es);
      }
    } else if Finished(s) {
      FinishedCanFinish(s);
    } else if InPlay(s.child) {
      DeliveryFinishes(s);
    } else {
      ClaimFinishes(s);
    }
  }

  /** A rerun whose add goes through leaves the job stuck exactly when the queue keeps a child that will not work. */
  lemma RerunSticksExactly(s: State, at: Time, throws: bool)
    requires Claimable(s.row)
    ensures Stuck(Next(s, MasterClaims(at, true, throws))) <==> s.child != Absent && !InPlay(s.child)
  {
  }

  /**
   * So a master attempt that claims the row leaves a job that can finish if and only if a working delivery is in play,
   * or the child's id is free and the attempt added the child, or threw so that its failure mark lets it try again. An
   * attempt whose process dies between its claim and its add leaves the row running for good.
   */
  lemma RerunCanFinishExactly(s: State, at: Time, landed: bool, throws: bool)
    requires Inv(s) && Claimable(s.row)
    ensures CanFinish(Next(s, MasterClaims(at, landed, throws))) <==>
            InPlay(s.child) || (s.child == Absent && (landed || throws || s.owed > 0))
  {
    StuckExactly(Next(s, MasterClaims(at, landed, throws)));
  }

  // ------------------------------------------------------------------ the runs that get there

  /** Deliveries of the child that all fail, from n attempts on. */
  function FailingDeliveries(n: nat): seq<Event> {
    if n == 0 then [] else [ChildReads(false)] + FailingDeliveries(n - 1)
  }

  lemma {:induction false} DeliveriesKill(row: Job, n: nat, owed: nat, rest: seq<Event>)
    requires n > 0 && IsRun(State(row, Dead, owed + n), rest)
    ensures var s, es := State(row, Waiting(n), owed), FailingDeliveries(n) + rest;
            IsRun(s, es) && After(s, es) == After(State(row, Dead, owed + n), rest)
    decreases n
  {
    var s, tail := State(row, Waiting(n), owed), FailingDeliveries(n - 1) + rest;
    var es := FailingDeliveries(n) + rest;
    if n == 1 { assert tail == rest; } else { DeliveriesKill(row, n - 1, owed + 1, rest); }
    assert es[0] == ChildReads(false) && es[1..] == tail;
    assert Next(s, es[0]) == State(row, if n == 1 then Dead else Waiting(n - 1), owed + 1);
  }

  lemma MarkedAndClaimed(row: Job, owed: nat, at: Time, message: string)
    requires owed > 0
    ensures var dead, es := State(row, Dead, owed), [Marks(at, message), MasterClaims(at, true, false)];
            IsRun(dead, es) && Stuck(After(dead, es)) && Inv(After(dead, es))
  {
    var dead, es := State(row, Dead, owed), [Marks(at, message), MasterClaims(at, true, false)];
    var marked := Next(dead, es[0]);
    assert es[1..] == [MasterClaims(at, true, false)] && es[1..][1..] == [];
    assert IsRun(Next(marked, es[1]), []) && IsRun(marked, es[1..]) && IsRun(dead, es);
    assert After(marked, es[1..]) == Next(marked, es[1]);
  }

  /**
   * The ordinary way to a replay is such a run: the child has used up its attempts, its failure is marked, and the
   * replayed master claims the row while the queue still keeps the dead child. Nothing the workers do finishes the job.
   */
  lemma ReplayAfterDeadChildSticks(row: Job, at: Time, message: string)
    ensures var es := FailingDeliveries(ATTEMPTS) + [Marks(at, message), MasterClaims(at, true, false)];
            var s := State(row, Waiting(ATTEMPTS), 0);
            IsRun(s, es) && Stuck(After(s, es)) && !CanFinish(After(s, es))
  {
    var rest := [Marks(at, message), MasterClaims(at, true, false)];
    MarkedAndClaimed(row, ATTEMPTS, at, message);
    DeliveriesKill(row, ATTEMPTS, 0, rest);
    StuckExactly(After(State(row, Dead, ATTEMPTS), rest));
  }
}
