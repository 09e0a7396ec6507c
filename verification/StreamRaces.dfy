/**
 * The event stream's polling ticks when they overlap (apps/api-express/src/routes/scrapeJobs.js): setInterval starts a
 * tick whether or not the one before has its rows, and every tick writes and moves the shared position when its query
 * answers. Each tick is a read step and a write step; the log grows at its end.
 */
module StreamRaces {
  import opened Basics
  import opened EventPaging

  type TickId = nat

  /** An answered query: the position it started from, and its rows. */
  datatype Fetch = Fetch(cursor: int, from: nat, rows: seq<Event>)

  /** `pos` and `from` are the places in the log of lastEventId and of a tick's cursor; they are kept for the proofs. */
  datatype State = State(log: seq<Event>, written: seq<Event>, last: int, pos: nat, pending: map<TickId, Fetch>)

  datatype Step =
    | Grow(more: seq<Event>)
    | Read(tick: TickId)
    | Write(tick: TickId)
    | Fail(tick: TickId)

  function Start(): State { State([], [], 0, 0, map[]) }

  ghost predicate Enabled(s: State, e: Step) {
    match e
    case Grow(more) => IsLog(s.log + more)
    case Read(tick) => tick !in s.pending
    case Write(tick) => tick in s.pending
    case Fail(tick) => tick in s.pending
  }

  ghost function Next(s: State, e: Step): State
    requires Enabled(s, e)
  {
    match e
    case Grow(more) => s.(log := s.log + more)
    case Read(tick) => s.(pending := s.pending[tick := Fetch(s.last, s.pos, Fetched(s.log, s.last))])
    case Write(tick) =>
      var f := s.pending[tick];
      var left := s.(pending := s.pending - {tick});
      if f.rows == [] then left
      else left.(written := s.written + f.rows, last := f.rows[|f.rows| - 1].id, pos := f.from + |f.rows|)
    case Fail(tick) => s.(pending := s.pending - {tick})
  }

  ghost predicate IsRun(s: State, es: seq<Step>)
    decreases |es|
  {
    es == [] || (Enabled(s, es[0]) && IsRun(Next(s, es[0]), es[1..]))
  }

  ghost function After(s: State, es: seq<Step>): State
    requires IsRun(s, es)
    decreases |es|
  {
    if es == [] then s else After(Next(s, es[0]), es[1..])
  }

  // ------------------------------------------------------------------ nothing is missed

  /** lastEventId at a place in the log. */
  function IdAt(log: seq<Event>, k: nat): int
    requires k <= |log|
  {
    if k == 0 then 0 else log[k - 1].id
  }

  ghost predicate Covers(written: seq<Event>, log: seq<Event>, k: nat)
    requires k <= |log|
  {
    forall i :: 0 <= i < k ==> log[i] in written
  }

  ghost predicate FetchTrue(s: State, f: Fetch) {
    && f.from + |f.rows| <= |s.log| && f.cursor == IdAt(s.log, f.from)
    && f.rows == s.log[f.from..f.from + |f.rows|] && Covers(s.written, s.log, f.from)
  }

  /** The position is a place in the log, and everything up to it has been written. */
  ghost predicate PlaceTrue(s: State) {
    IsLog(s.log) && s.pos <= |s.log| && s.last == IdAt(s.log, s.pos) && Covers(s.written, s.log, s.pos)
  }

  ghost predicate Inv(s: State) {
    && PlaceTrue(s)
    && forall tick :: tick in s.pending ==> FetchTrue(s, s.pending[tick])
  }

  lemma FetchedRows(log: seq<Event>, k: nat)
    requires IsLog(log) && k <= |log|
    ensures var rows := Fetched(log, IdAt(log, k)); k + |rows| <= |log| && rows == log[k..k + |rows|]
  {
    AboveIsSuffix(log, k, IdAt(log, k));
    FetchedIs(log, k, IdAt(log, k));
  }

  lemma FetchStays(s: State, t: State, f: Fetch)
    requires FetchTrue(s, f) && s.log <= t.log && s.written <= t.written
    ensures FetchTrue(t, f)
  {
    assert t.log[..|s.log|] == s.log && t.written[..|s.written|] == s.written;
    assert t.log[f.from..f.from + |f.rows|] == s.log[f.from..f.from + |f.rows|];
    CoversStays(s.written, t.written, s.log, t.log, f.from);
  }

  lemma CoversStays(w: seq<Event>, w': seq<Event>, log: seq<Event>, log': seq<Event>, k: nat)
    requires k <= |log| && Covers(w, log, k) && log <= log' && w <= w'
    ensures Covers(w', log', k)
  {
    forall i | 0 <= i < k ensures log'[i] in w' {
      var j :| 0 <= j < |w| && w[j] == log[i];
      assert log'[i] == log[i] && w'[j] == w[j];
    }
  }

  lemma WriteCovers(s: State, f: Fetch)
    requires Inv(s) && FetchTrue(s, f) && f.rows != []
    ensures Covers(s.written + f.rows, s.log, f.from + |f.rows|)
    ensures f.rows[|f.rows| - 1].id == IdAt(s.log, f.from + |f.rows|)
  {
    forall i | 0 <= i < f.from + |f.rows| ensures s.log[i] in s.written + f.rows {
      if i >= f.from { assert f.rows[i - f.from] == s.log[i]; } else { assert s.log[i] in s.written; }
    }
  }

  lemma StepGrows(s: State, e: Step)
    requires Enabled(s, e)
    ensures s.log <= Next(s, e).log && s.written <= Next(s, e).written
  {
  }

  lemma StepKeepsPlace(s: State, e: Step)
    requires Inv(s) && Enabled(s, e)
    ensures PlaceTrue(Next(s, e))
  {
    if e.Write? && s.pending[e.tick].rows != [] {
      WriteCovers(s, s.pending[e.tick]);
    } else {
      CoversStays(s.written, s.written, s.log, Next(s, e).log, s.pos);
    }
  }

  lemma FetchIsTrue(s: State, e: Step, tick: TickId)
    requires Inv(s) && Enabled(s, e) && tick in Next(s, e).pending
    ensures FetchTrue(Next(s, e), Next(s, e).pending[tick])
  {
    if e == Read(tick) {
      FetchedRows(s.log, s.pos);
    } else {
      StepGrows(s, e);
      FetchStays(s, Next(s, e), s.pending[tick]);
    }
  }

  lemma StepKeepsInv(s: State, e: Step)
    requires Inv(s) && Enabled(s, e)
    ensures Inv(Next(s, e))
  {
    StepKeepsPlace(s, e);
    forall tick | tick in Next(s, e).pending ensures FetchTrue(Next(s, e), Next(s, e).pending[tick]) {
      FetchIsTrue(s, e, tick);
    }
  }

  lemma {:induction false} RunKeepsInv(s: State, es: seq<Step>)
    requires Inv(s) && IsRun(s, es)
    ensures Inv(After(s, es)) && s.written <= After(s, es).written
    decreases |es|
  {
    if es != [] {
      StepKeepsInv(s, es[0]);
      StepGrows(s, es[0]);
      RunKeepsInv(Next(s, es[0]), es[1..]);
    }
  }

  lemma BeforePlace(log: seq<Event>, k: nat, i: nat)
    requires IsLog(log) && k <= |log| && i < |log| && log[i].id <= IdAt(log, k)
    ensures i < k
  {
  }

  /** However ticks overlap, answer late or fail: every event up to the stream's position has been written. */
  lemma NothingMissed(es: seq<Step>)
    requires IsRun(Start(), es)
    ensures var s := After(Start(), es); forall e :: e in s.log && e.id <= s.last ==> e in s.written
  {
    RunKeepsInv(Start(), es);
    var s := After(Start(), es);
    forall e | e in s.log && e.id <= s.last ensures e in s.written {
      var i :| 0 <= i < |s.log| && s.log[i] == e;
      BeforePlace(s.log, s.pos, i);
      assert s.log[i] in s.written;
    }
  }

  // ------------------------------------------------------------------ and when something is repeated

  /** The write finds the position where its read left it, or has nothing to write. */
  predicate InPlace(s: State, e: Step) {
    e.Write? && e.tick in s.pending && s.pending[e.tick].rows != [] ==> s.pending[e.tick].cursor == s.last
  }

  ghost predicate AllInPlace(s: State, es: seq<Step>)
    requires IsRun(s, es)
    decreases |es|
  {
    es == [] || (InPlace(s, es[0]) && AllInPlace(Next(s, es[0]), es[1..]))
  }

  /** The stream so far is the log up to its position, and no tick is ahead of it. */
  ghost predicate Exact(s: State) {
    && s.pos <= |s.log| && s.written == s.log[..s.pos]
    && forall tick :: tick in s.pending ==> s.pending[tick].from <= s.pos
  }

  lemma PlacesDiffer(log: seq<Event>, a: nat, b: nat)
    requires IsLog(log) && a <= |log| && b <= |log| && IdAt(log, a) == IdAt(log, b)
    ensures a == b
  {
  }

  lemma WriteKeepsExact(s: State, tick: TickId)
    requires Inv(s) && Exact(s) && tick in s.pending && s.pending[tick].rows != [] && InPlace(s, Write(tick))
    ensures Exact(Next(s, Write(tick)))
  {
    var f := s.pending[tick];
    assert FetchTrue(s, f);
    PlacesDiffer(s.log, f.from, s.pos);
    RowsExtend(s.log, s.written, s.pos, f.rows);
  }

  lemma RowsExtend(log: seq<Event>, written: seq<Event>, k: nat, rows: seq<Event>)
    requires k + |rows| <= |log| && written == log[..k] && rows == log[k..k + |rows|]
    ensures written + rows == log[..k + |rows|]
  {
  }

  lemma StepKeepsExact(s: State, e: Step)
    requires Inv(s) && Exact(s) && Enabled(s, e) && InPlace(s, e)
    ensures Exact(Next(s, e))
  {
    if e.Write? && s.pending[e.tick].rows != [] {
      WriteKeepsExact(s, e.tick);
    } else {
      assert Next(s, e).log[..s.pos] == s.log[..s.pos];
    }
  }

  /** A write out of place writes its first event a second time. */
  lemma OutOfPlaceRepeats(s: State, e: Step)
    requires Inv(s) && Exact(s) && Enabled(s, e) && !InPlace(s, e)
    ensures !NoDuplicates(Next(s, e).written)
  {
    var f := s.pending[e.tick];
    assert FetchTrue(s, f) && f.from < s.pos;
    var w := Next(s, e).written;
    assert w[f.from] == s.log[f.from] == w[s.pos];
  }

  lemma RepeatsStay(w: seq<Event>, w': seq<Event>)
    requires w <= w' && !NoDuplicates(w)
    ensures !NoDuplicates(w')
  {
    var i, j :| 0 <= i < j < |w| && w[i] == w[j];
    assert w'[i] == w[i] && w'[j] == w[j];
  }

  lemma LogHasNoDuplicates(log: seq<Event>, k: nat)
    requires IsLog(log) && k <= |log|
    ensures NoDuplicates(log[..k])
  {
  }

  lemma {:induction false} RepeatsFrom(s: State, es: seq<Step>)
    requires Inv(s) && Exact(s) && IsRun(s, es)
    ensures NoDuplicates(After(s, es).written) <==> AllInPlace(s, es)
    ensures AllInPlace(s, es) ==> Exact(After(s, es))
    decreases |es|
  {
    if es == [] {
      LogHasNoDuplicates(s.log, s.pos);
    } else {
      var t := Next(s, es[0]);
      StepKeepsInv(s, es[0]);
      if InPlace(s, es[0]) {
        StepKeepsExact(s, es[0]);
        RepeatsFrom(t, es[1..]);
      } else {
        OutOfPlaceRepeats(s, es[0]);
        RunKeepsInv(t, es[1..]);
        RepeatsStay(t.written, After(t, es[1..]).written);
      }
    }
  }

  /**
   * Over every run an event is written twice exactly when some tick with rows finds the position moved since its read;
   * otherwise the stream has written the log up to its position, in order and once.
   */
  lemma RepeatsExactly(es: seq<Step>)
    requires IsRun(Start(), es)
    ensures var s := After(Start(), es);
            && (NoDuplicates(s.written) <==> AllInPlace(Start(), es))
            && (AllInPlace(Start(), es) ==> s.pos <= |s.log| && s.written == s.log[..s.pos])
  {
    RepeatsFrom(Start(), es);
  }

  lemma RunFrom(s: State, e: Step, es: seq<Step>)
    requires Enabled(s, e) && IsRun(Next(s, e), es)
    ensures IsRun(s, [e] + es) && After(s, [e] + es) == After(Next(s, e), es)
  {
    assert ([e] + es)[1..] == es;
  }

  lemma OneEvent(e: Event)
    requires e.id > 0
    ensures IsLog([e]) && Fetched([e], 0) == [e]
  {
    AboveIsSuffix([e], 0, 0);
    FetchedIs([e], 0, 0);
  }

  /** The failing run: the second tick reads before the first has written, and both write the same event. */
  lemma OverlapRepeats(e: Event)
    requires e.id > 0
    ensures var es := [Grow([e])] + ([Read(1)] + ([Read(2)] + ([Write(1)] + ([Write(2)] + []))));
            IsRun(Start(), es) && After(Start(), es).written == [e, e]
  {
    OneEvent(e);
    assert [] + [e] == [e];
    var s1 := Next(Start(), Grow([e]));
    var s2 := Next(s1, Read(1));
    var s3 := Next(s2, Read(2));
    var s4 := Next(s3, Write(1));
    assert s4.written == [e] && Next(s4, Write(2)).written == [e, e];
    RunFrom(s4, Write(2), []);
    RunFrom(s3, Write(1), [Write(2)] + []);
    RunFrom(s2, Read(2), [Write(1)] + ([Write(2)] + []));
    RunFrom(s1, Read(1), [Read(2)] + ([Write(1)] + ([Write(2)] + [])));
    RunFrom(Start(), Grow([e]), [Read(1)] + ([Read(2)] + ([Write(1)] + ([Write(2)] + []))));
  }
}
