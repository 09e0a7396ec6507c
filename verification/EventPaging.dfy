/**
 * Reading a job's event log (apps/api-express/src/routes/scrapeJobs.js): cursor pages, newest
 * first, and the polling tick of the event stream, oldest first.
 */
module EventPaging {
  import opened Basics

  datatype Event = Event(id: int, body: string)

  /** Ids are drawn from an increasing sequence starting at one; events are never removed. */
  ghost predicate IsLog(log: seq<Event>) {
    (forall i :: 0 <= i < |log| ==> log[i].id > 0) && (forall i, j :: 0 <= i < j < |log| ==> log[i].id < log[j].id)
  }

  const MAX_EVENT_LIMIT := 200
  const DEFAULT_EVENT_LIMIT := 25

  /** The limit query parameter, already converted; None stands for NaN or an infinity. */
  function ResolveLimit(raw: Option<real>): (limit: int)
    ensures 0 <= limit <= 200
    ensures limit == 0 <==> raw.Some? && 0.0 < raw.value < 1.0
    ensures raw.Some? && 0.0 < raw.value < 201.0 ==> limit as real <= raw.value < limit as real + 1.0
    ensures raw.Some? && raw.value >= 200.0 ==> limit == 200
    ensures raw.None? || raw.value <= 0.0 ==> limit == 25
  {
    if raw.Some? && raw.value > 0.0 then Min(MAX_EVENT_LIMIT, raw.value.Floor) else DEFAULT_EVENT_LIMIT
  }

  function Below(log: seq<Event>, cursor: Option<int>): seq<Event> {
    if log == [] then []
    else
      var rest := Below(log[..|log| - 1], cursor);
      var e := log[|log| - 1];
      if cursor.None? || e.id < cursor.value then rest + [e] else rest
  }

  function Reversed<T>(s: seq<T>): seq<T> { seq(|s|, i requires 0 <= i < |s| => s[|s| - 1 - i]) }

  function Take<T>(s: seq<T>, n: nat): seq<T> { if |s| <= n then s else s[..n] }

  datatype Page = Page(events: seq<Event>, nextCursor: Option<int>)

  datatype Answer = Answered(page: Page) | InternalError

  /** The handler: one row more than the limit tells whether there is another page. */
  function GetPage(log: seq<Event>, cursor: Option<int>, limit: nat): Answer {
    var events := Take(Reversed(Below(log, cursor)), limit + 1);
    if |events| <= limit then Answered(Page(events, None))
    else if limit == 0 then InternalError  // page[page.length - 1] is undefined
    else Answered(Page(events[..limit], Some(events[limit - 1].id)))
  }

  /** The handler fails exactly when a fractional limit below one meets a job with events to show. */
  lemma PageFailsExactly(log: seq<Event>, cursor: Option<int>, raw: Option<real>)
    ensures GetPage(log, cursor, ResolveLimit(raw)).InternalError? <==>
            raw.Some? && 0.0 < raw.value < 1.0 && Below(log, cursor) != []
  {
  }

  /** How many events lie below the cursor: in a log they are the first ones. */
  lemma {:induction false} BelowIsPrefix(log: seq<Event>, k: nat)
    requires IsLog(log) && k < |log|
    ensures Below(log, Some(log[k].id)) == log[..k]
  {
    var init := log[..|log| - 1];
    if k == |log| - 1 {
      BelowAll(init, log[k].id);
    } else {
      BelowIsPrefix(init, k);
      assert init[..k] == log[..k];
    }
  }

  lemma {:induction false} BelowAll(log: seq<Event>, bound: int)
    requires forall i :: 0 <= i < |log| ==> log[i].id < bound
    ensures Below(log, Some(bound)) == log
  {
    if log != [] {
      BelowAll(log[..|log| - 1], bound);
      assert log[..|log| - 1] + [log[|log| - 1]] == log;
    }
  }

  lemma {:induction false} BelowNone(log: seq<Event>)
    ensures Below(log, None) == log
  {
    if log != [] {
      BelowNone(log[..|log| - 1]);
      assert log[..|log| - 1] + [log[|log| - 1]] == log;
    }
  }

  // ------------------------------------------------------------------ following nextCursor

  /** The log at the moment of each request: it only grows, with larger ids. */
  ghost predicate Growing(logs: nat -> seq<Event>) { forall i :: GrowsAt(logs, i) }

  ghost predicate GrowsAt(logs: nat -> seq<Event>, i: nat) { IsLog(logs(i)) && logs(i) <= logs(i + 1) }

  lemma {:induction false} GrowsFromStart(logs: nat -> seq<Event>, n: nat)
    requires Growing(logs)
    ensures logs(0) <= logs(n)
  {
    if n > 0 {
      GrowsFromStart(logs, n - 1);
      assert GrowsAt(logs, n - 1);
    }
  }

  /** A cursor the client can hold: none, or the id of an event it was given. */
  ghost predicate Issued(log: seq<Event>, cursor: Option<int>) {
    cursor.None? || exists k :: 0 <= k < |log| && log[k].id == cursor.value
  }

  lemma IssuedIsPrefix(log: seq<Event>, cursor: Option<int>)
    requires IsLog(log) && Issued(log, cursor)
    ensures var k := |Below(log, cursor)|; k <= |log| && Below(log, cursor) == log[..k]
  {
    if cursor.None? {
      BelowNone(log);
      assert log[..|log|] == log;
    } else {
      var k :| 0 <= k < |log| && log[k].id == cursor.value;
      BelowIsPrefix(log, k);
    }
  }

  function PageOf(newest: seq<Event>, limit: nat): Page
    requires limit >= 1
  {
    if |newest| <= limit then Page(newest, None) else Page(newest[..limit], Some(newest[limit - 1].id))
  }

  /** Asking for one row more than the limit costs nothing: the page is cut from all events below the cursor. */
  lemma PageIsCut(log: seq<Event>, cursor: Option<int>, limit: nat)
    requires limit >= 1
    ensures GetPage(log, cursor, limit) == Answered(PageOf(Reversed(Below(log, cursor)), limit))
  {
    var newest := Reversed(Below(log, cursor));
    assert |newest| > limit ==> newest[..limit + 1][..limit] == newest[..limit];
  }

  /** A page that names a next cursor leaves exactly the events that were not on it. */
  lemma PageShrinks(log: seq<Event>, later: seq<Event>, cursor: Option<int>, limit: nat)
    requires IsLog(log) && IsLog(later) && log <= later && Issued(log, cursor) && limit >= 1
    requires |Below(log, cursor)| > limit
    ensures var below, next := Below(log, cursor), PageOf(Reversed(Below(log, cursor)), limit).nextCursor;
            next.Some? && Issued(later, next) && Below(later, next) == below[..|below| - limit]
  {
    NextCursorIs(log, cursor, limit);
    CursorInLater(log, later, |Below(log, cursor)| - limit);
  }

  lemma CursorInLater(log: seq<Event>, later: seq<Event>, at: nat)
    requires IsLog(later) && log <= later && at < |log|
    ensures Issued(later, Some(log[at].id)) && Below(later, Some(log[at].id)) == log[..at]
  {
    assert later[at] == log[at];
    BelowIsPrefix(later, at);
    assert later[..at] == log[..at];
  }

  lemma CursorOf(newest: seq<Event>, limit: nat, at: Event)
    requires 1 <= limit < |newest| && newest[limit - 1] == at
    ensures PageOf(newest, limit).nextCursor == Some(at.id)
  {
  }

  lemma NextCursorIs(log: seq<Event>, cursor: Option<int>, limit: nat)
    requires IsLog(log) && Issued(log, cursor) && limit >= 1 && |Below(log, cursor)| > limit
    ensures var below := Below(log, cursor);
            var at := |below| - limit;
            && at < |log| && below[..at] == log[..at]
            && PageOf(Reversed(below), limit).nextCursor == Some(log[at].id)
  {
    IssuedIsPrefix(log, cursor);
    NextCursorOf(log, Below(log, cursor), limit);
  }

  lemma NextCursorOf(log: seq<Event>, below: seq<Event>, limit: nat)
    requires |below| <= |log| && below == log[..|below|] && 1 <= limit < |below|
    ensures var at := |below| - limit;
            below[..at] == log[..at] && PageOf(Reversed(below), limit).nextCursor == Some(log[at].id)
  {
    CursorOfPrefix(log, below, Reversed(below), limit);
  }

  lemma CursorOfPrefix(log: seq<Event>, below: seq<Event>, newest: seq<Event>, limit: nat)
    requires |newest| == |below| <= |log| && below == log[..|below|] && 1 <= limit < |below|
    requires newest[limit - 1] == below[|below| - limit]
    ensures var at := |below| - limit;
            below[..at] == log[..at] && PageOf(newest, limit).nextCursor == Some(log[at].id)
  {
    CursorOf(newest, limit, below[|below| - limit]);
    PrefixAt(log, |below|, |below| - limit);
  }

  lemma PrefixAt<T>(s: seq<T>, k: nat, at: nat)
    requires at < k <= |s|
    ensures s[..k][..at] == s[..at] && s[..k][at] == s[at]
  {
  }

  /** The log grows and every limit is at least one. */
  ghost predicate Serving(logs: nat -> seq<Event>, limits: nat -> nat) { Growing(logs) && forall j :: limits(j) >= 1 }

  /** What request i finds, and what it leaves to the next. */
  lemma Request(logs: nat -> seq<Event>, limits: nat -> nat, i: nat, cursor: Option<int>)
    requires Serving(logs, limits) && Issued(logs(i), cursor)
    ensures var below, page := Below(logs(i), cursor), PageOf(Reversed(Below(logs(i), cursor)), limits(i));
            && GetPage(logs(i), cursor, limits(i)) == Answered(page)
            && (page.nextCursor.None? ==> page.events == Reversed(below))
            && (page.nextCursor.Some? ==>
                && limits(i) <= |below| && page.events == Reversed(below)[..limits(i)]
                && Issued(logs(i + 1), page.nextCursor)
                && Below(logs(i + 1), page.nextCursor) == below[..|below| - limits(i)]
                && |Below(logs(i + 1), page.nextCursor)| < |below|)
  {
    assert GrowsAt(logs, i) && GrowsAt(logs, i + 1);
    PageIsCut(logs(i), cursor, limits(i));
    if |Below(logs(i), cursor)| > limits(i) { PageShrinks(logs(i), logs(i + 1), cursor, limits(i)); }
  }

  /** What a client collects by following nextCursor from request i on; limits(i) is its i-th limit. */
  ghost function Crawl(logs: nat -> seq<Event>, limits: nat -> nat, i: nat, cursor: Option<int>): seq<Event>
    requires Serving(logs, limits) && Issued(logs(i), cursor)
    decreases |Below(logs(i), cursor)|
  {
    Request(logs, limits, i, cursor);
    var page := GetPage(logs(i), cursor, limits(i)).page;
    if page.nextCursor.None? then page.events else page.events + Crawl(logs, limits, i + 1, page.nextCursor)
  }

  ghost predicate Collects(logs: nat -> seq<Event>, limits: nat -> nat, i: nat, cursor: Option<int>)
    requires Serving(logs, limits) && Issued(logs(i), cursor)
  {
    Crawl(logs, limits, i, cursor) == Reversed(Below(logs(i), cursor))
  }

  lemma CrawlUnfolds(logs: nat -> seq<Event>, limits: nat -> nat, i: nat, cursor: Option<int>)
    requires Serving(logs, limits) && Issued(logs(i), cursor)
    ensures var page := PageOf(Reversed(Below(logs(i), cursor)), limits(i));
            && (page.nextCursor.None? ==> Crawl(logs, limits, i, cursor) == Reversed(Below(logs(i), cursor)))
            && (page.nextCursor.Some? ==>
                  Issued(logs(i + 1), page.nextCursor) &&
                  Crawl(logs, limits, i, cursor) == page.events + Crawl(logs, limits, i + 1, page.nextCursor))
  {
    Request(logs, limits, i, cursor);
  }

  /** If the rest of the crawl collects what is left, the whole of it does. */
  lemma CollectsStep(logs: nat -> seq<Event>, limits: nat -> nat, i: nat, cursor: Option<int>, next: Option<int>)
    requires Serving(logs, limits) && Issued(logs(i), cursor)
    requires next == PageOf(Reversed(Below(logs(i), cursor)), limits(i)).nextCursor
    requires next.Some? ==> Issued(logs(i + 1), next) && Collects(logs, limits, i + 1, next)
    ensures Collects(logs, limits, i, cursor)
  {
    Request(logs, limits, i, cursor);
    CrawlUnfolds(logs, limits, i, cursor);
    if next.Some? { ReversedSplits(Below(logs(i), cursor), limits(i)); }
  }

  lemma {:induction false} CrawlCollects(logs: nat -> seq<Event>, limits: nat -> nat, i: nat, cursor: Option<int>)
    requires Serving(logs, limits) && Issued(logs(i), cursor)
    ensures Collects(logs, limits, i, cursor)
    decreases |Below(logs(i), cursor)|
  {
    var next := PageOf(Reversed(Below(logs(i), cursor)), limits(i)).nextCursor;
    Request(logs, limits, i, cursor);
    if next.Some? { CrawlCollects(logs, limits, i + 1, next); }
    CollectsStep(logs, limits, i, cursor, next);
  }

  lemma ReversedSplits<T>(s: seq<T>, n: nat)
    requires n <= |s|
    ensures Reversed(s) == Reversed(s)[..n] + Reversed(s[..|s| - n])
  {
  }

  /**
   * Whatever the limits and however many events arrive meanwhile, following nextCursor ends and
   * yields every event of the first request's log exactly once, newest first, and nothing else.
   */
  lemma PagingIsComplete(logs: nat -> seq<Event>, limits: nat -> nat)
    requires Serving(logs, limits)
    ensures Crawl(logs, limits, 0, None) == Reversed(logs(0))
  {
    CrawlCollects(logs, limits, 0, None);
    BelowNone(logs(0));
  }

  // ------------------------------------------------------------------ the stream's polling tick

  function Above(log: seq<Event>, last: int): seq<Event> {
    if log == [] then [] else (if log[0].id > last then [log[0]] else []) + Above(log[1..], last)
  }

  datatype Streamed = Streamed(written: seq<Event>, lastEventId: int)

  /** The loop of one tick over the rows it has read. */
  method WriteRows(s: Streamed, rows: seq<Event>) returns (s': Streamed)
    ensures s' == AfterRows(s, rows)
  {
    var written, lastEventId := s.written, s.lastEventId;
    var i := 0;
    while i < |rows|
      invariant 0 <= i <= |rows|
      invariant written == s.written + rows[..i]
      invariant lastEventId == if i == 0 then s.lastEventId else rows[i - 1].id
    {
      assert rows[..i + 1] == rows[..i] + [rows[i]];
      lastEventId := rows[i].id;
      written := written + [rows[i]];
      i := i + 1;
    }
    assert rows[..i] == rows;
    s' := Streamed(written, lastEventId);
  }

  /** One tick: at most 100 events past the last one written, oldest first. */
  method Tick(log: seq<Event>, s: Streamed) returns (s': Streamed)
    ensures s' == AfterTick(log, s)
  {
    var rows := Take(Above(log, s.lastEventId), 100);
    s' := WriteRows(s, rows);
  }

  function Fetched(log: seq<Event>, last: int): seq<Event> { Take(Above(log, last), 100) }

  function AfterTick(log: seq<Event>, s: Streamed): Streamed { AfterRows(s, Fetched(log, s.lastEventId)) }

  function AfterRows(s: Streamed, rows: seq<Event>): Streamed {
    Streamed(s.written + rows, if rows == [] then s.lastEventId else rows[|rows| - 1].id)
  }

  /** Ticks that do not overlap, each seeing the log of its moment. */
  ghost function AfterTicks(logs: nat -> seq<Event>, n: nat): Streamed {
    if n == 0 then Streamed([], 0) else AfterTick(logs(n - 1), AfterTicks(logs, n - 1))
  }

  /** The first k events of a log have been written, and the position matches. */
  ghost predicate Delivered(log: seq<Event>, s: Streamed, k: nat) {
    k <= |log| && s.written == log[..k] && s.lastEventId == if k == 0 then 0 else log[k - 1].id
  }

  lemma AboveCons(log: seq<Event>, last: int, k: nat)
    requires 0 < |log| && k <= |log| - 1 && Above(log[1..], last) == log[1..][k..]
    ensures log[0].id <= last ==> Above(log, last) == log[k + 1..]
    ensures log[0].id > last && k == 0 ==> Above(log, last) == log
  {
    assert log[1..][k..] == log[k + 1..];
    assert [log[0]] + log[1..] == log;
  }

  lemma LogTail(log: seq<Event>)
    requires IsLog(log) && log != []
    ensures IsLog(log[1..])
  {
  }

  lemma {:induction false} AboveIsSuffix(log: seq<Event>, k: nat, last: int)
    requires IsLog(log) && k <= |log|
    requires k > 0 ==> last >= log[k - 1].id
    requires k < |log| ==> log[k].id > last
    ensures Above(log, last) == log[k..]
  {
    if log != [] {
      LogTail(log);
      AboveIsSuffix(log[1..], if k == 0 then 0 else k - 1, last);
      AboveCons(log, last, if k == 0 then 0 else k - 1);
    }
  }

  lemma FetchedIs(log: seq<Event>, k: nat, last: int)
    requires k <= |log| && Above(log, last) == log[k..]
    ensures Fetched(log, last) == log[k..Min(k + 100, |log|)]
  {
  }

  lemma RowsDelivered(log: seq<Event>, s: Streamed, k: nat, m: nat, rows: seq<Event>)
    requires Delivered(log, s, k) && k <= m <= |log| && rows == log[k..m]
    ensures Delivered(log, AfterRows(s, rows), m)
  {
    assert log[..k] + log[k..m] == log[..m];
  }

  lemma TickDelivers(log: seq<Event>, s: Streamed, k: nat)
    requires IsLog(log) && Delivered(log, s, k)
    ensures Delivered(log, AfterTick(log, s), Min(k + 100, |log|))
  {
    AboveIsSuffix(log, k, s.lastEventId);
    FetchedIs(log, k, s.lastEventId);
    RowsDelivered(log, s, k, Min(k + 100, |log|), Fetched(log, s.lastEventId));
  }

  /**
   * After any number of serial ticks the stream has written a prefix of the log: in order, no gaps,
   * no repeats; and each tick moves it on by 100 events or up to the end of the log it saw.
   */
  lemma {:induction false} SerialTicksDeliver(logs: nat -> seq<Event>, n: nat) returns (k: nat)
    requires Growing(logs)
    ensures Delivered(logs(n), AfterTicks(logs, n), k)
    ensures k >= Min(100 * n, |logs(0)|)
  {
    if n == 0 {
      k := 0;
    } else {
      var j := SerialTicksDeliver(logs, n - 1);
      var first, log, later := logs(0), logs(n - 1), logs(n);
      assert GrowsAt(logs, n - 1);
      GrowsFromStart(logs, n - 1);
      k := Min(j + 100, |log|);
      TickDeliversLater(log, later, AfterTicks(logs, n - 1), j);
    }
  }

  lemma TickDeliversLater(log: seq<Event>, later: seq<Event>, s: Streamed, k: nat)
    requires IsLog(log) && Delivered(log, s, k) && log <= later
    ensures Delivered(later, AfterTick(log, s), Min(k + 100, |log|))
  {
    TickDelivers(log, s, k);
    var m := Min(k + 100, |log|);
    assert later[..m] == log[..m];
  }
}
