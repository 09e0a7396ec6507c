/**
 * Concurrent merges into the compliance snapshot (apps/worker-ingest/src/persistJobArtifacts.js,
 * upsertComplianceMerge): each awaits a read of the row and then an upsert of what it computed from it, without a
 * lock, so any number of other reads and writes may come between.
 */
module SnapshotRaces {
  import opened Basics
  import opened Json
  import opened ComplianceSnapshot

  type ExecId = nat

  /** A merge between its two awaits: what it ingests, the row it read, and how many writes it had seen. */
  datatype Pending = Pending(d: Deposit, seen: nat, stored: Object)

  /** A finished write, with the number of writes its merge had seen when it read. */
  datatype Entry = Entry(d: Deposit, seen: nat)

  datatype State = State(table: Table, pending: map<ExecId, Pending>, log: seq<Entry>)

  datatype Event = Read(exec: ExecId, d: Deposit) | Write(exec: ExecId) | Die(exec: ExecId)

  ghost predicate Enabled(s: State, e: Event) {
    match e
    case Read(exec, d) => exec !in s.pending && d.reg != "" && OwnFacts(d)
    case Write(exec) => exec in s.pending
    case Die(exec) => exec in s.pending
  }

  ghost function Next(s: State, e: Event): State
    requires Enabled(s, e)
  {
    match e
    case Read(exec, d) => s.(pending := s.pending[exec := Pending(d, |s.log|, AsRecord(Get(s.table, d.reg)))])
    case Write(exec) =>
      var p := s.pending[exec];
      State(s.table[p.d.reg := Merge(p.stored, p.d)], s.pending - {exec}, s.log + [Entry(p.d, p.seen)])
    case Die(exec) => s.(pending := s.pending - {exec})
  }

  function Start(): State { State(map[], map[], []) }

  ghost predicate IsRun(s: State, es: seq<Event>)
    decreases |es|
  {
    es == [] || (Enabled(s, es[0]) && IsRun(Next(s, es[0]), es[1..]))
  }

  ghost function After(s: State, es: seq<Event>): State
    requires IsRun(s, es)
    decreases |es|
  {
    if es == [] then s else After(Next(s, es[0]), es[1..])
  }

  // ------------------------------------------------------------------ what a row is made of

  /** The deposits written, in order. */
  function Written(log: seq<Entry>): seq<Deposit> {
    if log == [] then [] else Written(log[..|log| - 1]) + [log[|log| - 1].d]
  }

  ghost predicate WellFormed(log: seq<Entry>) {
    forall i :: 0 <= i < |log| ==> log[i].seen <= i && log[i].d.reg != "" && OwnFacts(log[i].d)
  }

  /** The deposits a vehicle's row is made of: the last one written, on top of those its merge had read. */
  ghost function Chain(log: seq<Entry>, reg: string): seq<Deposit>
    requires WellFormed(log)
    decreases |log|
  {
    if log == [] then []
    else
      var last := log[|log| - 1];
      if last.d.reg != reg then Chain(log[..|log| - 1], reg) else Chain(log[..last.seen], reg) + [last.d]
  }

  lemma {:induction false} ChainIsOwn(log: seq<Entry>, reg: string)
    requires WellFormed(log)
    ensures forall d :: d in Chain(log, reg) ==> OwnFacts(d) && d.reg == reg
    decreases |log|
  {
    if log != [] {
      var last := log[|log| - 1];
      ChainIsOwn(if last.d.reg != reg then log[..|log| - 1] else log[..last.seen], reg);
    }
  }

  lemma ChainSnoc(log: seq<Entry>, x: Entry, reg: string)
    requires WellFormed(log) && x.seen <= |log| && x.d.reg != "" && OwnFacts(x.d)
    ensures WellFormed(log + [x])
    ensures Chain(log + [x], reg) == if x.d.reg != reg then Chain(log, reg) else Chain(log[..x.seen], reg) + [x.d]
  {
    var more := log + [x];
    assert more[..|log|] == log && more[..x.seen] == log[..x.seen];
  }

  /** The snapshot a run of serial merges of these deposits would store. */
  ghost predicate RowIs(s: State, reg: string, ds: seq<Deposit>) { Get(s.table, reg) == Expected(ds, reg) }

  ghost predicate PendingTrue(s: State, p: Pending)
    requires WellFormed(s.log)
  {
    && p.seen <= |s.log| && p.d.reg != "" && OwnFacts(p.d)
    && var read := Expected(Chain(s.log[..p.seen], p.d.reg), p.d.reg);
       p.stored == AsRecord(read)
  }

  ghost predicate Inv(s: State) {
    && WellFormed(s.log)
    && (forall reg :: RowIs(s, reg, Chain(s.log, reg)))
    && (forall exec :: exec in s.pending ==> PendingTrue(s, s.pending[exec]))
  }

  lemma WriteKeepsRows(s: State, exec: ExecId, reg: string)
    requires Inv(s) && exec in s.pending
    ensures var t := Next(s, Write(exec)); WellFormed(t.log) && RowIs(t, reg, Chain(t.log, reg))
  {
    var p := s.pending[exec];
    assert PendingTrue(s, p) && RowIs(s, reg, Chain(s.log, reg));
    ChainSnoc(s.log, Entry(p.d, p.seen), reg);
    if reg == p.d.reg {
      ChainIsOwn(s.log[..p.seen], reg);
      ExpectedStep(Chain(s.log[..p.seen], reg), p.d);
    }
  }

  lemma PendingStays(s: State, t: State, p: Pending)
    requires WellFormed(s.log) && WellFormed(t.log) && PendingTrue(s, p) && s.log <= t.log
    ensures PendingTrue(t, p)
  {
    assert t.log[..p.seen] == s.log[..p.seen];
  }

  lemma ReadIsTrue(s: State, exec: ExecId, d: Deposit)
    requires Inv(s) && Enabled(s, Read(exec, d))
    ensures PendingTrue(s, Pending(d, |s.log|, AsRecord(Get(s.table, d.reg))))
  {
    assert s.log[..|s.log|] == s.log && RowIs(s, d.reg, Chain(s.log, d.reg));
  }

  lemma StepKeepsInv(s: State, e: Event)
    requires Inv(s) && Enabled(s, e)
    ensures Inv(Next(s, e)) && s.log <= Next(s, e).log
  {
    var t := Next(s, e);
    if e.Write? {
      WriteKeepsRows(s, e.exec, "");
      forall reg ensures RowIs(t, reg, Chain(t.log, reg)) { WriteKeepsRows(s, e.exec, reg); }
    } else {
      forall reg ensures RowIs(t, reg, Chain(t.log, reg)) { assert RowIs(s, reg, Chain(s.log, reg)); }
    }
    forall exec | exec in t.pending ensures PendingTrue(t, t.pending[exec]) {
      if e.Read? && exec == e.exec { ReadIsTrue(s, exec, e.d); }
      else { PendingStays(s, t, s.pending[exec]); }
    }
  }

  lemma {:induction false} RunKeepsInv(s: State, es: seq<Event>)
    requires Inv(s) && IsRun(s, es)
    ensures Inv(After(s, es)) && s.log <= After(s, es).log
    decreases |es|
  {
    if es != [] {
      StepKeepsInv(s, es[0]);
      RunKeepsInv(Next(s, es[0]), es[1..]);
    }
  }

  /** Under any interleaving a row is what serial merges of its chain would store, and nothing of any other write. */
  lemma RowsAreChains(es: seq<Event>, reg: string)
    requires IsRun(Start(), es)
    ensures var s := After(Start(), es); WellFormed(s.log) && Get(s.table, reg) == Expected(Chain(s.log, reg), reg)
  {
    RunKeepsInv(Start(), es);
    assert RowIs(After(Start(), es), reg, Chain(After(Start(), es).log, reg));
  }

  // ------------------------------------------------------------------ when no write is lost

  /** No write of another kind for the vehicle lies between a merge's read and its write. */
  ghost predicate NoOverlap(log: seq<Entry>, reg: string) {
    forall i, j :: 0 <= i < j < |log| && log[i].d.reg == reg && log[j].d.reg == reg && log[j].seen <= i ==>
      log[i].d.kind == log[j].d.kind
  }

  /** The chain says of the vehicle what all writes would have said one after the other. */
  ghost predicate Right(log: seq<Entry>, reg: string)
    requires WellFormed(log)
  {
    Expected(Chain(log, reg), reg) == Expected(Written(log), reg)
  }

  /** Writes of one kind for a vehicle differ in their stamp, which holds the job and the time. */
  ghost predicate DistinctStamps(log: seq<Entry>, reg: string) {
    forall i, j ::
      0 <= i < j < |log| && log[i].d.reg == reg && log[j].d.reg == reg && log[i].d.kind == log[j].d.kind ==>
      log[i].d.stamp != log[j].d.stamp
  }

  lemma {:induction false} NewestAgrees(log: seq<Entry>, reg: string)
    requires WellFormed(log)
    ensures Newest(Chain(log, reg), reg) == Newest(Written(log), reg)
  {
    if log != [] {
      var before, last := log[..|log| - 1], log[|log| - 1];
      NewestAgrees(before, reg);
      LastSnoc(Written(before), last.d, reg, last.d.kind);
      if last.d.reg == reg { LastSnoc(Chain(log[..last.seen], reg), last.d, reg, last.d.kind); }
    }
  }

  /** Writes of other kinds and vehicles do not change the last one of a kind. */
  lemma {:induction false} LastUnchanged(log: seq<Entry>, n: nat, reg: string, k: Kind)
    requires n <= |log| && forall i :: n <= i < |log| ==> log[i].d.reg != reg || log[i].d.kind != k
    ensures LastOf(Written(log), reg, k) == LastOf(Written(log[..n]), reg, k)
    decreases |log|
  {
    if n == |log| {
      assert log[..n] == log;
    } else {
      var before, last := log[..|log| - 1], log[|log| - 1];
      LastUnchanged(before, n, reg, k);
      assert before[..n] == log[..n];
      LastSnoc(Written(before), last.d, reg, k);
    }
  }

  lemma {:induction false} LastsAgree(log: seq<Entry>, reg: string, k: Kind)
    requires WellFormed(log) && NoOverlap(log, reg)
    ensures LastOf(Chain(log, reg), reg, k) == LastOf(Written(log), reg, k)
    decreases |log|
  {
    if log != [] {
      var before, last := log[..|log| - 1], log[|log| - 1];
      LastSnoc(Written(before), last.d, reg, k);
      if last.d.reg != reg {
        LastsAgree(before, reg, k);
      } else {
        LastSnoc(Chain(log[..last.seen], reg), last.d, reg, k);
        if last.d.kind != k {
          LastsAgree(log[..last.seen], reg, k);
          assert before[..last.seen] == log[..last.seen];
          LastUnchanged(before, last.seen, reg, k);
        }
      }
    }
  }

  lemma RightWithoutOverlap(log: seq<Entry>, reg: string)
    requires WellFormed(log) && NoOverlap(log, reg)
    ensures Right(log, reg)
  {
    NewestAgrees(log, reg);
    forall k: Kind ensures LastOf(Chain(log, reg), reg, k) == LastOf(Written(log), reg, k) { LastsAgree(log, reg, k); }
  }

  // ------------------------------------------------------------------ and when one is

  lemma StampTold(ds: seq<Deposit>, reg: string, kind: Kind, k: Kind)
    ensures Get(StampOf(LastOf(ds, reg, kind)), KindName(k)) ==
            var last := LastOf(ds, reg, k); if kind == k && last.Some? then Some(last.value.stamp) else None
  {
    LastOfFacts(ds, reg, kind);
    if kind != k { KeysAreDistinct(kind, k); }
  }

  lemma UnionTold(a: Object, b: Object, c: Object, d: Object, key: string, told: Option<Json>)
    requires Get(a, key) in {None, told} && Get(b, key) in {None, told} && Get(c, key) in {None, told} &&
             Get(d, key) in {None, told}
    requires told in {Get(a, key), Get(b, key), Get(c, key), Get(d, key)}
    ensures Get(a + b + c + d, key) == told
  {
  }

  lemma SourceTold(ds: seq<Deposit>, reg: string, k: Kind)
    ensures Get(SourcesOf(ds, reg), KindName(k)) ==
            var last := LastOf(ds, reg, k); if last.Some? then Some(last.value.stamp) else None
  {
    StampTold(ds, reg, Permit, k);
    StampTold(ds, reg, Insurance, k);
    StampTold(ds, reg, Fitness, k);
    StampTold(ds, reg, Registration, k);
    UnionTold(StampOf(LastOf(ds, reg, Permit)), StampOf(LastOf(ds, reg, Insurance)), StampOf(LastOf(ds, reg, Fitness)),
              StampOf(LastOf(ds, reg, Registration)), KindName(k), Get(StampOf(LastOf(ds, reg, k)), KindName(k)));
  }

  lemma SnapshotTells(sources: Object, kind: string, at: string, compliance: Object)
    ensures Snapshot(sources, kind, at, compliance).fields["sources"] == JObj(sources)
  {
    assert |"sources"| == 7 && |"lastIngestKind"| == 14 && |"lastIngestAt"| == 12 && |"compliance"| == 10;
  }

  /** Rows that are alike name the same last stamp of every kind. */
  lemma AlikeRowsAlikeStamps(a: seq<Deposit>, b: seq<Deposit>, reg: string, k: Kind)
    requires Expected(a, reg) == Expected(b, reg) && Newest(a, reg).Some? && Newest(b, reg).Some?
    ensures var x, y := LastOf(a, reg, k), LastOf(b, reg, k);
            (x.Some? <==> y.Some?) && (x.Some? ==> x.value.stamp == y.value.stamp)
  {
    var m, n := Newest(a, reg).value, Newest(b, reg).value;
    SnapshotTells(SourcesOf(a, reg), KindName(m.kind), m.at, ComplianceOf(a, reg));
    SnapshotTells(SourcesOf(b, reg), KindName(n.kind), n.at, ComplianceOf(b, reg));
    SourceTold(a, reg, k);
    SourceTold(b, reg, k);
  }

  lemma {:induction false} LastIsWritten(log: seq<Entry>, i: nat, reg: string, k: Kind) returns (m: nat)
    requires i < |log| && log[i].d.reg == reg && log[i].d.kind == k
    ensures i <= m < |log| && LastOf(Written(log), reg, k) == Some(log[m].d)
    ensures log[m].d.reg == reg && log[m].d.kind == k
  {
    var before, last := log[..|log| - 1], log[|log| - 1];
    LastSnoc(Written(before), last.d, reg, k);
    if last.d.reg == reg && last.d.kind == k { m := |log| - 1; } else { m := LastIsWritten(before, i, reg, k); }
  }

  lemma {:induction false} ChainIsWritten(log: seq<Entry>, reg: string, d: Deposit) returns (m: nat)
    requires WellFormed(log) && d in Chain(log, reg)
    ensures m < |log| && log[m].d == d
    decreases |log|
  {
    var last := log[|log| - 1];
    if last.d.reg == reg && last.d == d { m := |log| - 1; }
    else { m := ChainIsWritten(if last.d.reg != reg then log[..|log| - 1] else log[..last.seen], reg, d); }
  }

  /** A merge that had not seen a write of another kind wipes it out. */
  lemma OverlapLoses(log: seq<Entry>, i: nat, reg: string)
    requires WellFormed(log) && DistinctStamps(log, reg) && log != [] && i < |log| - 1
    requires var last := log[|log| - 1];
             last.d.reg == reg && last.seen <= i && log[i].d.reg == reg && log[i].d.kind != last.d.kind
    ensures !Right(log, reg)
  {
    var last, k := log[|log| - 1], log[i].d.kind;
    var read := Chain(log[..last.seen], reg);
    LastSnoc(read, last.d, reg, k);
    var m := LastIsWritten(log, i, reg, k);
    if LastOf(read, reg, k).Some? {
      LastOfFacts(read, reg, k);
      var early := ChainIsWritten(log[..last.seen], reg, LastOf(read, reg, k).value);
      assert early < m && log[early].d.stamp != log[m].d.stamp;
    }
    if Right(log, reg) {
      NewestAgrees(log, reg);
      LastSnoc(Written(log[..|log| - 1]), last.d, reg, k);
      AlikeRowsAlikeStamps(Chain(log, reg), Written(log), reg, k);
    }
  }

  /** The row was right after every write. */
  ghost predicate AlwaysRight(log: seq<Entry>, from: nat, reg: string) {
    forall n :: from <= n <= |log| ==> RightAt(log, n, reg)
  }

  ghost predicate RightAt(log: seq<Entry>, n: nat, reg: string)
    requires n <= |log|
  {
    WellFormed(log[..n]) && Right(log[..n], reg)
  }

  lemma PrefixRight(log: seq<Entry>, n: nat, reg: string)
    requires WellFormed(log) && NoOverlap(log, reg) && n <= |log|
    ensures RightAt(log, n, reg)
  {
    RightWithoutOverlap(log[..n], reg);
  }

  /** Write j of the vehicle was read before write i, of another kind. */
  ghost predicate Overlaps(log: seq<Entry>, i: nat, j: nat, reg: string)
    requires i < j < |log|
  {
    log[i].d.reg == reg && log[j].d.reg == reg && log[j].seen <= i && log[i].d.kind != log[j].d.kind
  }

  lemma OverlapSeen(log: seq<Entry>, i: nat, j: nat, reg: string)
    requires WellFormed(log) && DistinctStamps(log, reg) && i < j < |log| && Overlaps(log, i, j, reg)
    ensures !RightAt(log, j + 1, reg)
  {
    var upTo := log[..j + 1];
    assert upTo[|upTo| - 1] == log[j] && upTo[i] == log[i];
    OverlapLoses(upTo, i, reg);
  }

  lemma OverlapExists(log: seq<Entry>, reg: string) returns (i: nat, j: nat)
    requires !NoOverlap(log, reg)
    ensures i < j < |log| && Overlaps(log, i, j, reg)
  {
    i, j :| 0 <= i < j < |log| && log[i].d.reg == reg && log[j].d.reg == reg && log[j].seen <= i &&
      log[i].d.kind != log[j].d.kind;
  }

  lemma AlwaysRightExactly(log: seq<Entry>, reg: string)
    requires WellFormed(log) && DistinctStamps(log, reg)
    ensures AlwaysRight(log, 0, reg) <==> NoOverlap(log, reg)
  {
    if NoOverlap(log, reg) {
      forall n | 0 <= n <= |log| ensures RightAt(log, n, reg) { PrefixRight(log, n, reg); }
    } else {
      var i, j := OverlapExists(log, reg);
      OverlapSeen(log, i, j, reg);
      assert !RightAt(log, j + 1, reg);
    }
  }

  // ------------------------------------------------------------------ over whole runs

  /** In every state of the run the stored row is what serial merges of the writes so far would have stored. */
  ghost predicate RightThroughout(s: State, es: seq<Event>, reg: string)
    requires IsRun(s, es)
    decreases |es|
  {
    RowIs(s, reg, Written(s.log)) && (es == [] || RightThroughout(Next(s, es[0]), es[1..], reg))
  }

  lemma AlwaysSplits(log: seq<Entry>, n: nat, reg: string)
    requires WellFormed(log) && n <= |log|
    ensures AlwaysRight(log, n, reg) <==> RightAt(log, n, reg) && (n == |log| || AlwaysRight(log, n + 1, reg))
  {
    if RightAt(log, n, reg) && (n == |log| || AlwaysRight(log, n + 1, reg)) {
      forall k | n <= k <= |log| ensures RightAt(log, k, reg) { if k > n {} }
    }
  }

  lemma RowIsRight(s: State, log: seq<Entry>, reg: string)
    requires Inv(s) && WellFormed(log) && s.log <= log
    ensures WellFormed(log[..|s.log|]) && (RowIs(s, reg, Written(s.log)) <==> Right(log[..|s.log|], reg))
  {
    assert RowIs(s, reg, Chain(s.log, reg)) && log[..|s.log|] == s.log;
  }

  lemma OneMoreWrite(s: State, e: Event)
    requires Enabled(s, e)
    ensures |Next(s, e).log| == |s.log| + if e.Write? then 1 else 0
  {
  }

  lemma {:induction false} ThroughoutIsAlways(s: State, es: seq<Event>, reg: string)
    requires Inv(s) && IsRun(s, es)
    ensures Inv(After(s, es)) && (RightThroughout(s, es, reg) <==> AlwaysRight(After(s, es).log, |s.log|, reg))
    decreases |es|
  {
    RunKeepsInv(s, es);
    var log := After(s, es).log;
    RowIsRight(s, log, reg);
    AlwaysSplits(log, |s.log|, reg);
    if es != [] {
      StepKeepsInv(s, es[0]);
      ThroughoutIsAlways(Next(s, es[0]), es[1..], reg);
      RunKeepsInv(Next(s, es[0]), es[1..]);
      OneMoreWrite(s, es[0]);
    }
  }

  /**
   * The stored row is right in every state of a run exactly when no write of another kind for the vehicle lies
   * between an ingest's read and its write.
   */
  lemma RowsRightExactly(es: seq<Event>, reg: string)
    requires IsRun(Start(), es) && DistinctStamps(After(Start(), es).log, reg)
    ensures RightThroughout(Start(), es, reg) <==> NoOverlap(After(Start(), es).log, reg)
  {
    ThroughoutIsAlways(Start(), es, reg);
    AlwaysRightExactly(After(Start(), es).log, reg);
  }

  lemma RunFrom(s: State, e: Event, es: seq<Event>)
    requires Enabled(s, e) && IsRun(Next(s, e), es)
    ensures IsRun(s, [e] + es) && After(s, [e] + es) == After(Next(s, e), es)
  {
    assert ([e] + es)[0] == e && ([e] + es)[1..] == es;
  }

  lemma OnlyLastKind(b: Deposit, k: Kind)
    requires OwnFacts(b) && b.kind != k
    ensures Expected([b], b.reg) == Some(Merge(map[], b))
    ensures KindName(k) !in AsRecord(Get(Merge(map[], b).fields, "sources"))
  {
    var none: seq<Deposit> := [];
    ExpectedStep(none, b);
    assert none + [b] == [b];
    KeysAreDistinct(k, b.kind);
    assert |"sources"| == 7 && |"lastIngestKind"| == 14 && |"lastIngestAt"| == 12 && |"compliance"| == 10;
  }

  lemma RaceRun(a: Deposit, b: Deposit)
    requires a.reg == b.reg != "" && OwnFacts(a) && OwnFacts(b)
    ensures var es := [Read(1, a)] + ([Read(2, b)] + ([Write(1)] + ([Write(2)] + [])));
            IsRun(Start(), es) && Get(After(Start(), es).table, a.reg) == Some(Merge(map[], b))
  {
    var s1 := Next(Start(), Read(1, a));
    var s2 := Next(s1, Read(2, b));
    var s3 := Next(s2, Write(1));
    RunFrom(s3, Write(2), []);
    RunFrom(s2, Write(1), [Write(2)] + []);
    RunFrom(s1, Read(2, b), [Write(1)] + ([Write(2)] + []));
    RunFrom(Start(), Read(1, a), [Read(2, b)] + ([Write(1)] + ([Write(2)] + [])));
  }

  /** The race: two ingests of different kinds both read before either writes, and the first one's kind is lost. */
  lemma TwoIngestRace(a: Deposit, b: Deposit)
    requires a.reg == b.reg != "" && a.kind != b.kind && OwnFacts(a) && OwnFacts(b)
    ensures var es := [Read(1, a)] + ([Read(2, b)] + ([Write(1)] + ([Write(2)] + [])));
            && IsRun(Start(), es)
            && var row := Get(After(Start(), es).table, a.reg);
               row == Expected([b], a.reg) && row.Some? &&
                 KindName(a.kind) !in AsRecord(Get(row.value.fields, "sources"))
  {
    RaceRun(a, b);
    OnlyLastKind(b, a.kind);
  }
}
