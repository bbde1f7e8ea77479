/** Reading missed durable events page by page while live events keep arriving. */
module EventReplay {
  import opened Wrappers

  datatype LogEvent = LogEvent(cursor: nat, name: string)

  // One element of a page as decoded: an object with a name, or something unusable.
  datatype RawEvent = Named(event: LogEvent) | Unusable

  datatype Page =
    | CallFailed
    | NotAnObject
    | NoEventList
    | Page(events: seq<RawEvent>, nextCursor: Option<nat>, latestCursor: Option<nat>, hasMore: bool)

  // A live event that arrives while a page is awaited; accepted is what publish_once answered.
  datatype LiveEvent = LiveEvent(cursor: Option<nat>, accepted: bool)

  // Everything the hub and the cursor saw, in order.
  datatype Trace =
    | Live(event: LiveEvent)
    | Replayed(item: LogEvent)
    | Commit(cursor: nat)

  datatype Failure = BadStart | ReadFailed | BadPage | BadCursor | BadEvent | NoProgress

  datatype Summary = Summary(nextCursor: nat, latestCursor: Option<nat>, pagesRead: nat, eventsRead: nat, hasMore: bool, truncated: bool)

  datatype Finished = Finished(trace: seq<Trace>, result: Result<Summary, Failure>)

  // Read k asks for the events after a cursor; before its answer some live events arrive.
  type Server = (nat, nat) -> Page
  type LiveFeed = nat -> seq<LiveEvent>

  // ---- The cursor ----

  /** Never backwards; the first value is taken as it comes. */
  function Advance(current: Option<nat>, cursor: Option<nat>): Option<nat> {
    if cursor.None? then current
    else if current.None? || cursor.value >= current.value then cursor
    else current
  }

  function CursorAfter(start: Option<nat>, trace: seq<Trace>): Option<nat> {
    if trace == [] then start
    else
      var before := CursorAfter(start, trace[..|trace| - 1]);
      match trace[|trace| - 1]
      case Live(event) => if event.accepted then Advance(before, event.cursor) else before
      case Replayed(_) => before
      case Commit(cursor) => Advance(before, Some(cursor))
  }

  predicate AtLeast(a: Option<nat>, b: Option<nat>) {
    b.Some? ==> a.Some? && a.value >= b.value
  }

  lemma {:induction false} CursorNeverDecreases(start: Option<nat>, trace: seq<Trace>, n: nat)
    requires n <= |trace|
    ensures AtLeast(CursorAfter(start, trace), CursorAfter(start, trace[..n]))
    decreases |trace|
  {
    if n == |trace| {
      assert trace[..n] == trace;
    } else {
      CursorNeverDecreases(start, trace[..|trace| - 1], n);
      assert trace[..|trace| - 1][..n] == trace[..n];
    }
  }

  // ---- One page ----

  /** The events delivered from a page: all of them, or those before the first unusable one. */
  function Delivered(events: seq<RawEvent>): seq<Trace> {
    if events == [] || events[0].Unusable? then [] else [Replayed(events[0].event)] + Delivered(events[1..])
  }

  predicate AllNamed(events: seq<RawEvent>) {
    forall i :: 0 <= i < |events| ==> events[i].Named?
  }

  function Arrivals(live: seq<LiveEvent>): seq<Trace> {
    seq(|live|, i requires 0 <= i < |live| => Live(live[i]))
  }

  predicate Readable(page: Page, cursor: nat) {
    page.Page? && page.nextCursor.Some? && page.nextCursor.value >= cursor
  }

  function Rejection(page: Page): Failure {
    match page
    case CallFailed => ReadFailed
    case NotAnObject => BadPage
    case NoEventList => BadPage
    case Page(_, _, _, _) => BadCursor
  }

  /** What one good page adds: the arrivals before it, its events, and only then its cursor. */
  function PageTrace(live: seq<LiveEvent>, events: seq<RawEvent>, next: nat): seq<Trace> {
    Arrivals(live) + Delivered(events) + [Commit(next)]
  }

  function Latest(page: Page, latest: Option<nat>): Option<nat>
    requires page.Page?
  {
    if page.latestCursor.Some? then page.latestCursor else latest
  }

  /** The reference run, page by page, from page k at a cursor. */
  function Run(server: Server, live: LiveFeed, cursor: nat, k: nat, budget: nat, latest: Option<nat>, read: nat): Finished
    requires k < budget
    decreases budget - k
  {
    var page := server(k, cursor);
    if !Readable(page, cursor) then Finished(Arrivals(live(k)), Err(Rejection(page)))
    else if !AllNamed(page.events) then Finished(Arrivals(live(k)) + Delivered(page.events), Err(BadEvent))
    else
      var next := page.nextCursor.value;
      var here := PageTrace(live(k), page.events, next);
      var summary := Summary(next, Latest(page, latest), k + 1, read + |page.events|, page.hasMore, page.hasMore);
      if page.hasMore && next <= cursor then Finished(here, Err(NoProgress))
      else if !page.hasMore || k + 1 == budget then Finished(here, Ok(summary))
      else
        var rest := Run(server, live, next, k + 1, budget, Latest(page, latest), read + |page.events|);
        Finished(here + rest.trace, rest.result)
  }

  function Distance(a: int, b: int): int {
    if a < b then b - a else a - b
  }

  /** The nearest number between the bounds. */
  function Clamp(value: int, low: int, high: int): (r: int)
    ensures low <= high ==> low <= r <= high
    ensures forall other :: low <= other <= high ==> Distance(r, value) <= Distance(other, value)
  {
    if value < low then low else if value > high then high else value
  }

  class Replayer {
    var eventCursor: Option<nat>
    var trace: seq<Trace>
    ghost const start: Option<nat>

    ghost predicate Valid()
      reads this
    {
      eventCursor == CursorAfter(start, trace)
    }

    constructor (cursor: Option<nat>)
      ensures Valid() && eventCursor == cursor && trace == []
    {
      eventCursor, start, trace := cursor, cursor, [];
    }

    method Record(entry: Trace)
      requires Valid()
      modifies this
      ensures Valid() && trace == old(trace) + [entry]
    {
      match entry {
        case Live(event) =>
          if event.accepted {
            eventCursor := Advance(eventCursor, event.cursor);
          }
        case Replayed(_) =>
        case Commit(cursor) => eventCursor := Advance(eventCursor, Some(cursor));
      }
      trace := trace + [entry];
      assert trace[..|trace| - 1] == old(trace);
    }

    method Arrive(live: seq<LiveEvent>)
      requires Valid()
      modifies this
      ensures Valid() && trace == old(trace) + Arrivals(live)
    {
      ghost var all := Arrivals(live);
      for i := 0 to |live|
        invariant Valid() && trace == old(trace) + all[..i]
      {
        Record(Live(live[i]));
        assert all[..i + 1] == all[..i] + [Live(live[i])];
      }
    }

    method Deliver(events: seq<RawEvent>) returns (ok: bool)
      requires Valid()
      modifies this
      ensures Valid() && trace == old(trace) + Delivered(events)
      ensures ok <==> AllNamed(events)
    {
      assert events[0..] == events;
      for i := 0 to |events|
        invariant Valid() && trace + Delivered(events[i..]) == old(trace) + Delivered(events)
        invariant forall j :: 0 <= j < i ==> events[j].Named?
      {
        assert events[i..][0] == events[i] && events[i..][1..] == events[i + 1..];
        if events[i].Unusable? {
          return false;
        }
        ghost var before, rest := trace, Delivered(events[i + 1..]);
        Record(Replayed(events[i].event));
        assert before + ([Replayed(events[i].event)] + rest) == before + [Replayed(events[i].event)] + rest;
      }
      assert events[|events|..] == [];
      return true;
    }

    /** One page: its arrivals, then its events, and its cursor only if all of them were delivered. */
    method TakePage(page: Page, live: seq<LiveEvent>, cursor: nat) returns (next: Result<nat, Failure>)
      requires Valid()
      modifies this
      ensures Valid()
      ensures next == if !Readable(page, cursor) then Err(Rejection(page))
                      else if !AllNamed(page.events) then Err(BadEvent)
                      else Ok(page.nextCursor.value)
      ensures next.Ok? ==> page.Page?
      ensures trace == old(trace) +
                       if !Readable(page, cursor) then Arrivals(live)
                       else if !AllNamed(page.events) then Arrivals(live) + Delivered(page.events)
                       else PageTrace(live, page.events, page.nextCursor.value)
    {
      hide Arrivals, Delivered, CursorAfter, AllNamed;
      Arrive(live);
      if !Readable(page, cursor) {
        return Err(Rejection(page));
      }
      var ok := Deliver(page.events);
      AppendAssociates(old(trace), Arrivals(live), Delivered(page.events));
      if !ok {
        return Err(BadEvent);
      }
      Record(Commit(page.nextCursor.value));
      AppendAssociates(old(trace), Arrivals(live) + Delivered(page.events), [Commit(page.nextCursor.value)]);
      return Ok(page.nextCursor.value);
    }

    /** Reads at most the page budget, commits a page's cursor only after the whole page was delivered. */
    method ReplayEvents(server: Server, live: LiveFeed, afterCursor: Option<int>, maxPages: int)
      returns (result: Result<Summary, Failure>)
      requires Valid()
      modifies this
      ensures Valid()
      ensures afterCursor.None? || afterCursor.value < 0 ==> result == Err(BadStart) && trace == old(trace)
      ensures afterCursor.Some? && afterCursor.value >= 0 ==>
        Continued(old(trace), Run(server, live, afterCursor.value, 0, Clamp(maxPages, 1, 100), None, 0))
        == Finished(trace, result)
    {
      hide Run, CursorAfter, Arrivals, Delivered, AllNamed, PageTrace, Continued, Readable, Rejection, Clamp, Latest;
      if afterCursor.None? || afterCursor.value < 0 {
        return Err(BadStart);
      }
      var budget: nat := Clamp(maxPages, 1, 100);
      var cursor: nat := afterCursor.value;
      var latest: Option<nat> := None;
      var pagesRead: nat := 0;
      var eventsRead: nat := 0;
      ghost var whole := Continued(old(trace), Run(server, live, cursor, 0, budget, None, 0));
      while pagesRead < budget
        invariant Valid() && pagesRead < budget
        invariant whole == Continued(trace, Run(server, live, cursor, pagesRead, budget, latest, eventsRead))
        decreases budget - pagesRead
      {
        RunUnfolds(trace, server, live, cursor, pagesRead, budget, latest, eventsRead);
        var page := server(pagesRead, cursor);
        var next := TakePage(page, live(pagesRead), cursor);
        if next.Err? {
          return Err(next.error);
        }
        latest := Latest(page, latest);
        eventsRead := eventsRead + |page.events|;
        pagesRead := pagesRead + 1;
        if !page.hasMore {
          return Ok(Summary(next.value, latest, pagesRead, eventsRead, false, false));
        }
        if next.value <= cursor {
          return Err(NoProgress);
        }
        cursor := next.value;
        if pagesRead == budget {
          return Ok(Summary(cursor, latest, pagesRead, eventsRead, true, true));
        }
      }
    }
  }

  lemma RunUnfolds(done: seq<Trace>, server: Server, live: LiveFeed, cursor: nat, k: nat, budget: nat, latest: Option<nat>, read: nat)
    requires k < budget
    ensures var run := Continued(done, Run(server, live, cursor, k, budget, latest, read));
            var page := server(k, cursor);
            if !Readable(page, cursor) then run == Finished(done + Arrivals(live(k)), Err(Rejection(page)))
            else if !AllNamed(page.events) then
              run == Finished(done + (Arrivals(live(k)) + Delivered(page.events)), Err(BadEvent))
            else
              var next := page.nextCursor.value;
              var done' := done + PageTrace(live(k), page.events, next);
              var read' := read + |page.events|;
              if !page.hasMore then run == Finished(done', Ok(Summary(next, Latest(page, latest), k + 1, read', false, false)))
              else if next <= cursor then run == Finished(done', Err(NoProgress))
              else if k + 1 == budget then run == Finished(done', Ok(Summary(next, Latest(page, latest), k + 1, read', true, true)))
              else run == Continued(done', Run(server, live, next, k + 1, budget, Latest(page, latest), read'))
  {
    var page := server(k, cursor);
    if Readable(page, cursor) && AllNamed(page.events) && page.hasMore && page.nextCursor.value > cursor && k + 1 < budget {
      ContinuedAgain(done, PageTrace(live(k), page.events, page.nextCursor.value),
                     Run(server, live, page.nextCursor.value, k + 1, budget, Latest(page, latest), read + |page.events|));
    }
  }

  ghost function Continued(done: seq<Trace>, rest: Finished): Finished {
    Finished(done + rest.trace, rest.result)
  }

  lemma ContinuedAgain(done: seq<Trace>, here: seq<Trace>, rest: Finished)
    ensures Continued(done, Continued(here, rest)) == Continued(done + here, rest)
  {
    assert done + (here + rest.trace) == (done + here) + rest.trace;
  }

  // ---- Which pages a run reads, and what its last page makes of it ----

  ghost predicate Usable(page: Page, cursor: nat) {
    && page.Page? && page.nextCursor.Some? && page.nextCursor.value >= cursor
    && forall j :: 0 <= j < |page.events| ==> page.events[j].Named?
  }

  /** From page k on: each page but the last is usable, has more after it, and moves the cursor forward to the next one. */
  ghost predicate Walks(server: Server, k: nat, cursors: seq<nat>) {
    forall i :: 0 <= i < |cursors| - 1 ==>
      && Usable(server(k + i, cursors[i]), cursors[i]) && server(k + i, cursors[i]).hasMore
      && cursors[i] < cursors[i + 1] && server(k + i, cursors[i]).nextCursor == Some(cursors[i + 1])
  }

  /** The events on these pages, all together. */
  ghost function EventCount(server: Server, k: nat, cursors: seq<nat>): nat
    decreases |cursors|
  {
    if cursors == [] then 0
    else
      var page := server(k, cursors[0]);
      (if page.Page? then |page.events| else 0) + EventCount(server, k + 1, cursors[1..])
  }

  /** The last latest cursor that one of these pages reports. */
  ghost function LastLatest(server: Server, k: nat, cursors: seq<nat>, latest: Option<nat>): Option<nat>
    decreases |cursors|
  {
    if cursors == [] then latest
    else
      var page := server(k, cursors[0]);
      LastLatest(server, k + 1, cursors[1..],
                 if page.Page? && page.latestCursor.Some? then page.latestCursor else latest)
  }

  /** How the last page read ends a run. */
  ghost predicate EndsOn(page: Page, cursor: nat, result: Result<Summary, Failure>) {
    match page
    case CallFailed => result == Err(ReadFailed)
    case NotAnObject | NoEventList => result == Err(BadPage)
    case Page(events, next, _, hasMore) =>
      if next.None? || next.value < cursor then result == Err(BadCursor)
      else if exists j :: 0 <= j < |events| && events[j].Unusable? then result == Err(BadEvent)
      else if hasMore && next.value == cursor then result == Err(NoProgress)
      else result.Ok? && result.value.nextCursor == next.value && result.value.hasMore == result.value.truncated == hasMore
  }

  lemma WalksOn(server: Server, k: nat, cursor: nat, rest: seq<nat>)
    requires rest != [] && Walks(server, k + 1, rest)
    requires Usable(server(k, cursor), cursor) && server(k, cursor).hasMore
    requires cursor < rest[0] && server(k, cursor).nextCursor == Some(rest[0])
    ensures Walks(server, k, [cursor] + rest)
  {
    var all := [cursor] + rest;
    forall i | 0 <= i < |all| - 1
      ensures Usable(server(k + i, all[i]), all[i]) && server(k + i, all[i]).hasMore
      ensures all[i] < all[i + 1] && server(k + i, all[i]).nextCursor == Some(all[i + 1])
    {
      if i > 0 {
        assert all[i] == rest[i - 1] && all[i + 1] == rest[i];
        assert server(k + 1 + (i - 1), rest[i - 1]) == server(k + i, all[i]);
      }
    }
  }

  /** The result of a run that read these pages, the last of them for this cursor. */
  ghost predicate Concludes(server: Server, k: nat, cursors: seq<nat>, latest: Option<nat>, read: nat, budget: nat,
                            result: Result<Summary, Failure>)
    requires cursors != []
  {
    var m := |cursors|;
    var last := server(k + m - 1, cursors[m - 1]);
    && EndsOn(last, cursors[m - 1], result)
    && (result.Ok? ==>
          && (result.value.hasMore ==> k + m == budget)
          && result.value.pagesRead == k + m
          && result.value.eventsRead == read + EventCount(server, k, cursors)
          && result.value.latestCursor == LastLatest(server, k, cursors, latest))
  }

  lemma OneMorePage(server: Server, k: nat, cursor: nat, rest: seq<nat>, latest: Option<nat>, read: nat, budget: nat,
                    result: Result<Summary, Failure>)
    requires rest != [] && server(k, cursor).Page?
    requires var page := server(k, cursor);
             Concludes(server, k + 1, rest, Latest(page, latest), read + |page.events|, budget, result)
    ensures Concludes(server, k, [cursor] + rest, latest, read, budget, result)
  {
    var all := [cursor] + rest;
    assert all[1..] == rest && all[|all| - 1] == rest[|rest| - 1];
    assert k + |all| - 1 == k + 1 + |rest| - 1;
    hide EndsOn;
  }

  lemma LastPage(server: Server, live: LiveFeed, cursor: nat, k: nat, budget: nat, latest: Option<nat>, read: nat)
    requires k < budget
    requires var page := server(k, cursor);
             !(Readable(page, cursor) && AllNamed(page.events) && page.hasMore && page.nextCursor.value > cursor && k + 1 < budget)
    ensures Concludes(server, k, [cursor], latest, read, budget, Run(server, live, cursor, k, budget, latest, read).result)
  {
    var page := server(k, cursor);
    assert [cursor][1..] == [] && k + |[cursor]| - 1 == k;
    assert EventCount(server, k + 1, []) == 0;
    if page.Page? && !AllNamed(page.events) {
      var j :| 0 <= j < |page.events| && !page.events[j].Named?;
      assert page.events[j].Unusable?;
    }
    var result := Run(server, live, cursor, k, budget, latest, read).result;
    assert EndsOn(page, cursor, result);
    assert result.Ok? ==> LastLatest(server, k, [cursor], latest) == Latest(page, latest);
    hide Arrivals, Delivered, PageTrace;
  }

  lemma NextPage(server: Server, live: LiveFeed, cursor: nat, k: nat, budget: nat, latest: Option<nat>, read: nat)
    requires k + 1 < budget
    requires var page := server(k, cursor);
             Readable(page, cursor) && AllNamed(page.events) && page.hasMore && page.nextCursor.value > cursor
    ensures var page := server(k, cursor);
            Run(server, live, cursor, k, budget, latest, read).result ==
            Run(server, live, page.nextCursor.value, k + 1, budget, Latest(page, latest), read + |page.events|).result
  {
    hide Arrivals, Delivered, PageTrace, AllNamed;
  }

  /** Every run reads pages as long as they are usable, have more and make progress, at most its budget; the last decides. */
  lemma {:induction false} RunWalks(server: Server, live: LiveFeed, cursor: nat, k: nat, budget: nat,
                                    latest: Option<nat>, read: nat) returns (cursors: seq<nat>)
    requires k < budget
    ensures cursors != [] && cursors[0] == cursor && k + |cursors| <= budget && Walks(server, k, cursors)
    ensures Concludes(server, k, cursors, latest, read, budget, Run(server, live, cursor, k, budget, latest, read).result)
    decreases budget - k
  {
    var page := server(k, cursor);
    cursors := [cursor];
    if Readable(page, cursor) && AllNamed(page.events) && page.hasMore && page.nextCursor.value > cursor && k + 1 < budget {
      var next, read' := page.nextCursor.value, read + |page.events|;
      var rest := RunWalks(server, live, next, k + 1, budget, Latest(page, latest), read');
      WalksOn(server, k, cursor, rest);
      NextPage(server, live, cursor, k, budget, latest, read);
      OneMorePage(server, k, cursor, rest, latest, read, budget, Run(server, live, cursor, k, budget, latest, read).result);
      cursors := [cursor] + rest;
    } else {
      LastPage(server, live, cursor, k, budget, latest, read);
    }
    hide Run, Concludes, Walks, Latest;
  }

  /** A page's trace in order: what arrived while it was awaited, its events, its cursor. */
  lemma PageInOrder(live: seq<LiveEvent>, events: seq<RawEvent>, next: nat)
    requires AllNamed(events)
    ensures var trace := PageTrace(live, events, next);
            && |trace| == |live| + |events| + 1 && trace[|live| + |events|] == Commit(next)
            && (forall i :: 0 <= i < |live| ==> trace[i] == Live(live[i]))
            && (forall i :: 0 <= i < |events| ==> trace[|live| + i] == Replayed(events[i].event))
  {
    DeliveredInOrder(events);
  }

  lemma {:induction false} DeliveredInOrder(events: seq<RawEvent>)
    requires AllNamed(events)
    ensures |Delivered(events)| == |events|
    ensures forall i :: 0 <= i < |events| ==> Delivered(events)[i] == Replayed(events[i].event)
  {
    if events != [] {
      DeliveredInOrder(events[1..]);
    }
  }

  // ---- Against the server's log ----

  predicate Increasing(log: seq<LogEvent>) {
    forall i, j :: 0 <= i < j < |log| ==> log[i].cursor < log[j].cursor
  }

  /** The log's events with a cursor in (from, upto]. */
  function Slice(log: seq<LogEvent>, from: nat, upto: nat): seq<LogEvent> {
    if log == [] then []
    else if from < log[0].cursor <= upto then [log[0]] + Slice(log[1..], from, upto)
    else Slice(log[1..], from, upto)
  }

  lemma {:induction false} SliceJoins(log: seq<LogEvent>, a: nat, b: nat, c: nat)
    requires Increasing(log) && a <= b <= c
    ensures Slice(log, a, b) + Slice(log, b, c) == Slice(log, a, c)
  {
    if log != [] {
      SliceJoins(log[1..], a, b, c);
      var low, high := Slice(log[1..], a, b), Slice(log[1..], b, c);
      if a < log[0].cursor <= b {
        AppendAssociates([log[0]], low, high);
      } else if b < log[0].cursor {
        SliceAbove(log[1..], a, b);
      }
    }
  }

  lemma {:induction false} SliceAbove(log: seq<LogEvent>, a: nat, b: nat)
    requires Increasing(log) && forall i :: 0 <= i < |log| ==> b < log[i].cursor
    ensures Slice(log, a, b) == []
  {
    if log != [] {
      SliceAbove(log[1..], a, b);
    }
  }

  function EventsOf(events: seq<RawEvent>): seq<LogEvent> {
    if events == [] then []
    else if events[0].Named? then [events[0].event] + EventsOf(events[1..])
    else EventsOf(events[1..])
  }

  /** Every readable page is the log between the asked cursor and the one it returns. */
  ghost predicate Serves(server: Server, log: seq<LogEvent>) {
    forall k: nat, cursor: nat :: Readable(server(k, cursor), cursor) ==>
      EventsOf(server(k, cursor).events) == Slice(log, cursor, server(k, cursor).nextCursor.value)
  }

  /** The replayed part of a trace, live arrivals and commits dropped. */
  function ReplayedEvents(trace: seq<Trace>): seq<LogEvent> {
    if trace == [] then []
    else if trace[0].Replayed? then [trace[0].item] + ReplayedEvents(trace[1..])
    else ReplayedEvents(trace[1..])
  }

  lemma {:induction false} ReplayedAppend(a: seq<Trace>, b: seq<Trace>)
    ensures ReplayedEvents(a + b) == ReplayedEvents(a) + ReplayedEvents(b)
  {
    if a == [] {
      assert a + b == b;
    } else {
      ReplayedAppend(a[1..], b);
      assert (a + b)[0] == a[0] && (a + b)[1..] == a[1..] + b;
    }
  }

  lemma {:induction false} ArrivalsReplayNothing(live: seq<LiveEvent>)
    ensures ReplayedEvents(Arrivals(live)) == []
  {
    if live != [] {
      ArrivalsReplayNothing(live[1..]);
      assert Arrivals(live)[1..] == Arrivals(live[1..]);
    }
  }

  lemma {:induction false} DeliveredAreEvents(events: seq<RawEvent>)
    ensures ReplayedEvents(Delivered(events)) <= EventsOf(events)
    ensures AllNamed(events) ==> ReplayedEvents(Delivered(events)) == EventsOf(events)
    ensures AllNamed(events) ==> |EventsOf(events)| == |events|
  {
    if events != [] {
      DeliveredAreEvents(events[1..]);
      if events[0].Named? {
        assert Delivered(events)[1..] == Delivered(events[1..]);
        if AllNamed(events) {
          assert AllNamed(events[1..]);
        }
      }
    }
  }

  lemma PageReplays(live: seq<LiveEvent>, events: seq<RawEvent>, next: nat)
    requires AllNamed(events)
    ensures ReplayedEvents(PageTrace(live, events, next)) == EventsOf(events)
  {
    ArrivalsReplayNothing(live);
    DeliveredAreEvents(events);
    ReplayedAppend(Arrivals(live) + Delivered(events), [Commit(next)]);
    ReplayedAppend(Arrivals(live), Delivered(events));
    assert [Commit(next)][1..] == [];
  }

  /** On success every event in (after, next] was delivered, in order, and the counters say so. */
  lemma {:induction false} ReplayIsComplete(server: Server, live: LiveFeed, log: seq<LogEvent>,
                                            cursor: nat, k: nat, budget: nat, latest: Option<nat>, read: nat)
    requires k < budget && Increasing(log) && Serves(server, log)
    ensures var run := Run(server, live, cursor, k, budget, latest, read);
            run.result.Ok? ==>
              var s := run.result.value;
              && cursor <= s.nextCursor
              && ReplayedEvents(run.trace) == Slice(log, cursor, s.nextCursor)
              && s.eventsRead == read + |Slice(log, cursor, s.nextCursor)|
              && k < s.pagesRead <= budget
              && (s.truncated <==> s.hasMore) && (s.truncated ==> s.pagesRead == budget)
    decreases budget - k
  {
    var page := server(k, cursor);
    if Readable(page, cursor) && AllNamed(page.events) {
      var next := page.nextCursor.value;
      PageReplays(live(k), page.events, next);
      DeliveredAreEvents(page.events);
      if page.hasMore && next > cursor && k + 1 < budget {
        var latest' := Latest(page, latest);
        var read' := read + |page.events|;
        ReplayIsComplete(server, live, log, next, k + 1, budget, latest', read');
        var rest := Run(server, live, next, k + 1, budget, latest', read');
        ReplayedAppend(PageTrace(live(k), page.events, next), rest.trace);
        if rest.result.Ok? {
          SliceJoins(log, cursor, next, rest.result.value.nextCursor);
        }
      }
    }
  }

  /** Wherever a commit stands in the trace, everything up to its cursor was replayed before it. */
  ghost predicate CommitsAreSafe(trace: seq<Trace>, log: seq<LogEvent>, cursor: nat) {
    forall i :: 0 <= i < |trace| && trace[i].Commit? ==>
      cursor <= trace[i].cursor && ReplayedEvents(trace[..i]) == Slice(log, cursor, trace[i].cursor)
  }

  lemma OnePageIsSafe(live: seq<LiveEvent>, events: seq<RawEvent>, log: seq<LogEvent>, cursor: nat, next: nat)
    requires AllNamed(events) && EventsOf(events) == Slice(log, cursor, next) && cursor <= next
    ensures CommitsAreSafe(PageTrace(live, events, next), log, cursor)
  {
    var deliveries := Arrivals(live) + Delivered(events);
    var trace := PageTrace(live, events, next);
    ArrivalsReplayNothing(live);
    DeliveredAreEvents(events);
    ReplayedAppend(Arrivals(live), Delivered(events));
    NoCommitBeforeEnd(live, events);
    forall i | 0 <= i < |deliveries| ensures !trace[i].Commit? {
      assert deliveries[i] in deliveries;
    }
    assert trace[..|deliveries|] == deliveries;
  }

  lemma {:induction false} DeliveredAreReplays(events: seq<RawEvent>)
    ensures forall t :: t in Delivered(events) ==> t.Replayed?
  {
    if events != [] {
      DeliveredAreReplays(events[1..]);
    }
  }

  lemma NoCommitBeforeEnd(live: seq<LiveEvent>, events: seq<RawEvent>)
    ensures forall t :: t in Arrivals(live) + Delivered(events) ==> !t.Commit?
  {
    DeliveredAreReplays(events);
  }

  lemma SafeAfterPage(page: seq<Trace>, rest: seq<Trace>, log: seq<LogEvent>, cursor: nat, next: nat)
    requires Increasing(log) && cursor <= next
    requires CommitsAreSafe(page, log, cursor) && ReplayedEvents(page) == Slice(log, cursor, next)
    requires CommitsAreSafe(rest, log, next)
    ensures CommitsAreSafe(page + rest, log, cursor)
  {
    var trace := page + rest;
    forall i | 0 <= i < |trace| && trace[i].Commit?
      ensures cursor <= trace[i].cursor && ReplayedEvents(trace[..i]) == Slice(log, cursor, trace[i].cursor)
    {
      if i < |page| {
        assert trace[..i] == page[..i] && trace[i] == page[i];
      } else {
        var j := i - |page|;
        assert trace[i] == rest[j] && trace[..i] == page + rest[..j];
        ReplayedAppend(page, rest[..j]);
        SliceJoins(log, cursor, next, trace[i].cursor);
      }
    }
  }

  /** Whether the run succeeds or fails half way, no cursor is committed ahead of its events. */
  lemma {:induction false} EveryCommitIsSafe(server: Server, live: LiveFeed, log: seq<LogEvent>,
                                             cursor: nat, k: nat, budget: nat, latest: Option<nat>, read: nat)
    requires k < budget && Increasing(log) && Serves(server, log)
    ensures CommitsAreSafe(Run(server, live, cursor, k, budget, latest, read).trace, log, cursor)
    decreases budget - k
  {
    var page := server(k, cursor);
    var arrivals := Arrivals(live(k));
    if !Readable(page, cursor) {
    } else if !AllNamed(page.events) {
      NoCommitBeforeEnd(live(k), page.events);
      var trace := arrivals + Delivered(page.events);
      forall i | 0 <= i < |trace| ensures !trace[i].Commit? {
        assert trace[i] in trace;
      }
    } else {
      var next := page.nextCursor.value;
      OnePageIsSafe(live(k), page.events, log, cursor, next);
      if page.hasMore && next > cursor && k + 1 < budget {
        var latest' := Latest(page, latest);
        EveryCommitIsSafe(server, live, log, next, k + 1, budget, latest', read + |page.events|);
        PageReplays(live(k), page.events, next);
        SafeAfterPage(PageTrace(live(k), page.events, next),
                      Run(server, live, next, k + 1, budget, latest', read + |page.events|).trace, log, cursor, next);
      }
    }
  }

  // ---- What a live event does to the cursor ----

  function LastCommit(trace: seq<Trace>, start: nat): nat {
    if trace == [] then start
    else if trace[|trace| - 1].Commit? then trace[|trace| - 1].cursor
    else LastCommit(trace[..|trace| - 1], start)
  }

  /** An accepted live event that carries a cursor beyond everything committed so far. */
  predicate JumpsAhead(trace: seq<Trace>, start: nat, i: nat)
    requires i < |trace|
  {
    && trace[i].Live? && trace[i].event.accepted && trace[i].event.cursor.Some?
    && trace[i].event.cursor.value > LastCommit(trace, start)
  }

  predicate CommitsRise(trace: seq<Trace>, start: nat) {
    forall i :: 0 <= i < |trace| && trace[i].Commit? ==> trace[i].cursor >= LastCommit(trace[..i], start)
  }

  lemma {:induction false} CursorAtLeastLastCommit(trace: seq<Trace>, start: nat)
    requires CommitsRise(trace, start)
    ensures CursorAfter(Some(start), trace).Some?
    ensures CursorAfter(Some(start), trace).value >= LastCommit(trace, start)
  {
    if trace != [] {
      var before := trace[..|trace| - 1];
      forall i | 0 <= i < |before| && before[i].Commit? ensures before[i].cursor >= LastCommit(before[..i], start) {
        assert before[i] == trace[i] && before[..i] == trace[..i];
      }
      CursorAtLeastLastCommit(before, start);
    }
  }

  predicate AcceptedCursor(trace: seq<Trace>, i: nat, c: nat)
    requires i < |trace|
  {
    trace[i].Live? && trace[i].event.accepted && trace[i].event.cursor == Some(c)
  }

  /** The stored cursor is the maximum of the last commit and the accepted live cursors. */
  lemma {:induction false} CursorIsMax(trace: seq<Trace>, start: nat)
    requires CommitsRise(trace, start)
    ensures CursorAfter(Some(start), trace).Some?
    ensures var c := CursorAfter(Some(start), trace).value;
            && (forall i: nat, d: nat :: i < |trace| && AcceptedCursor(trace, i, d) ==> d <= c)
            && (c == LastCommit(trace, start) || exists i :: 0 <= i < |trace| && AcceptedCursor(trace, i, c))
  {
    CursorAtLeastLastCommit(trace, start);
    if trace != [] {
      var before, last := trace[..|trace| - 1], |trace| - 1;
      forall i | 0 <= i < |before| && before[i].Commit? ensures before[i].cursor >= LastCommit(before[..i], start) {
        assert before[i] == trace[i] && before[..i] == trace[..i];
      }
      CursorIsMax(before, start);
      var b, c := CursorAfter(Some(start), before).value, CursorAfter(Some(start), trace).value;
      assert b <= c;
      forall i: nat, d: nat | i < |trace| && AcceptedCursor(trace, i, d) ensures d <= c {
        if i < last {
          assert AcceptedCursor(before, i, d);
        }
      }
      if c != b {
        assert c == LastCommit(trace, start) || AcceptedCursor(trace, last, c);
      } else if b != LastCommit(before, start) {
        var i :| 0 <= i < |before| && AcceptedCursor(before, i, b);
        assert AcceptedCursor(trace, i, c);
      }
    }
  }

  /** The stored cursor is exactly the last committed one unless a live event jumped ahead of it. */
  lemma CursorIsLastCommitIff(trace: seq<Trace>, start: nat)
    requires CommitsRise(trace, start)
    ensures CursorAfter(Some(start), trace) == Some(LastCommit(trace, start))
       <==> forall i :: 0 <= i < |trace| ==> !JumpsAhead(trace, start, i)
  {
    CursorIsMax(trace, start);
    CursorAtLeastLastCommit(trace, start);
    var c, commit := CursorAfter(Some(start), trace).value, LastCommit(trace, start);
    if c == commit {
      forall i | 0 <= i < |trace| ensures !JumpsAhead(trace, start, i) {
        if trace[i].Live? && trace[i].event.accepted && trace[i].event.cursor.Some? {
          assert AcceptedCursor(trace, i, trace[i].event.cursor.value);
        }
      }
    } else {
      var i :| 0 <= i < |trace| && AcceptedCursor(trace, i, c);
      assert JumpsAhead(trace, start, i);
    }
  }

  /** The cursors one run commits only rise, starting from the one it was asked for. */
  lemma {:induction false} RunCommitsRise(server: Server, live: LiveFeed, cursor: nat, k: nat, budget: nat, latest: Option<nat>, read: nat)
    requires k < budget
    ensures CommitsRise(Run(server, live, cursor, k, budget, latest, read).trace, cursor)
    decreases budget - k
  {
    var page := server(k, cursor);
    if Readable(page, cursor) {
      NoCommitBeforeEnd(live(k), page.events);
      NoCommitsRise(Arrivals(live(k)) + Delivered(page.events), cursor);
      if AllNamed(page.events) {
        var next := page.nextCursor.value;
        PageRises(live(k), page.events, cursor, next);
        if page.hasMore && next > cursor && k + 1 < budget {
          var latest', read' := Latest(page, latest), read + |page.events|;
          RunCommitsRise(server, live, next, k + 1, budget, latest', read');
          RiseAppend(PageTrace(live(k), page.events, next), Run(server, live, next, k + 1, budget, latest', read').trace, cursor, next);
        }
      }
    }
  }

  lemma NoCommitsRise(trace: seq<Trace>, start: nat)
    requires forall t :: t in trace ==> !t.Commit?
    ensures CommitsRise(trace, start)
  {
    forall i | 0 <= i < |trace| ensures !trace[i].Commit? {
      assert trace[i] in trace;
    }
  }

  lemma PageRises(live: seq<LiveEvent>, events: seq<RawEvent>, cursor: nat, next: nat)
    requires cursor <= next
    ensures CommitsRise(PageTrace(live, events, next), cursor)
    ensures LastCommit(PageTrace(live, events, next), cursor) == next
  {
    var deliveries, trace := Arrivals(live) + Delivered(events), PageTrace(live, events, next);
    NoCommitBeforeEnd(live, events);
    NoCommitsKeepStart(deliveries, cursor);
    assert trace[..|deliveries|] == deliveries;
    forall i | 0 <= i < |deliveries| ensures !trace[i].Commit? {
      assert deliveries[i] in deliveries;
    }
  }

  lemma {:induction false} NoCommitsKeepStart(trace: seq<Trace>, start: nat)
    requires forall t :: t in trace ==> !t.Commit?
    ensures LastCommit(trace, start) == start
  {
    if trace != [] {
      assert trace[|trace| - 1] in trace;
      NoCommitsKeepStart(trace[..|trace| - 1], start);
    }
  }

  lemma {:induction false} LastCommitAppend(a: seq<Trace>, b: seq<Trace>, start: nat)
    ensures LastCommit(a + b, start) == LastCommit(b, LastCommit(a, start))
  {
    if b == [] {
      assert a + b == a;
    } else {
      LastCommitAppend(a, b[..|b| - 1], start);
      assert (a + b)[..|a + b| - 1] == a + b[..|b| - 1];
    }
  }

  lemma RiseAppend(a: seq<Trace>, b: seq<Trace>, start: nat, mid: nat)
    requires CommitsRise(a, start) && LastCommit(a, start) == mid && CommitsRise(b, mid)
    ensures CommitsRise(a + b, start)
  {
    var trace := a + b;
    forall i | 0 <= i < |trace| && trace[i].Commit? ensures trace[i].cursor >= LastCommit(trace[..i], start) {
      if i < |a| {
        assert trace[..i] == a[..i] && trace[i] == a[i];
      } else {
        assert trace[..i] == a + b[..i - |a|] && trace[i] == b[i - |a|];
        LastCommitAppend(a, b[..i - |a|], start);
      }
    }
  }

  /** The stored cursor of a run is its last safe commit exactly when no accepted live cursor is beyond that. */
  lemma CursorStaysAtCommitIff(server: Server, live: LiveFeed, log: seq<LogEvent>, cursor: nat, budget: nat)
    requires 0 < budget && Increasing(log) && Serves(server, log)
    ensures var trace := Run(server, live, cursor, 0, budget, None, 0).trace;
            && CommitsAreSafe(trace, log, cursor)
            && (CursorAfter(Some(cursor), trace) == Some(LastCommit(trace, cursor))
                <==> forall i :: 0 <= i < |trace| ==> !JumpsAhead(trace, cursor, i))
  {
    EveryCommitIsSafe(server, live, log, cursor, 0, budget, None, 0);
    RunCommitsRise(server, live, cursor, 0, budget, None, 0);
    CursorIsLastCommitIff(Run(server, live, cursor, 0, budget, None, 0).trace, cursor);
  }

  // ---- Gaps, decided by what the server answers and what arrives live ----

  // How far the pages reach, how many reads that takes, and what a broken last page still delivers.
  datatype Fate = Fate(reached: nat, readCount: nat, leftover: seq<LogEvent>)

  function FateOf(server: Server, cursor: nat, k: nat, budget: nat): Fate
    requires k < budget
    decreases budget - k
  {
    var page := server(k, cursor);
    if !Readable(page, cursor) then Fate(cursor, k + 1, [])
    else if !AllNamed(page.events) then Fate(cursor, k + 1, ReplayedEvents(Delivered(page.events)))
    else if !page.hasMore || page.nextCursor.value <= cursor || k + 1 == budget then Fate(page.nextCursor.value, k + 1, [])
    else FateOf(server, page.nextCursor.value, k + 1, budget)
  }

  ghost predicate Accepts(events: seq<LiveEvent>, c: nat) {
    exists j :: 0 <= j < |events| && events[j].accepted && events[j].cursor == Some(c)
  }

  /** An event with this cursor is accepted live during one of the reads [k, upto). */
  ghost predicate ArrivesLive(live: LiveFeed, k: nat, upto: nat, c: nat) {
    exists r: nat :: k <= r < upto && Accepts(live(r), c)
  }

  ghost predicate LiveIn(trace: seq<Trace>, c: nat) {
    exists i :: 0 <= i < |trace| && AcceptedCursor(trace, i, c)
  }

  lemma LiveInAppend(a: seq<Trace>, b: seq<Trace>, c: nat)
    ensures LiveIn(a + b, c) <==> LiveIn(a, c) || LiveIn(b, c)
  {
    var all := a + b;
    if LiveIn(a, c) {
      var i :| 0 <= i < |a| && AcceptedCursor(a, i, c);
      assert AcceptedCursor(all, i, c);
    }
    if LiveIn(b, c) {
      var i :| 0 <= i < |b| && AcceptedCursor(b, i, c);
      assert AcceptedCursor(all, |a| + i, c);
    }
    if LiveIn(all, c) {
      var i :| 0 <= i < |all| && AcceptedCursor(all, i, c);
      assert if i < |a| then AcceptedCursor(a, i, c) else AcceptedCursor(b, i - |a|, c);
    }
  }

  lemma LiveInArrivals(events: seq<LiveEvent>, c: nat)
    ensures LiveIn(Arrivals(events), c) <==> Accepts(events, c)
  {
    if Accepts(events, c) {
      var j :| 0 <= j < |events| && events[j].accepted && events[j].cursor == Some(c);
      assert AcceptedCursor(Arrivals(events), j, c);
    }
  }

  lemma LiveInDelivered(events: seq<RawEvent>, c: nat)
    ensures !LiveIn(Delivered(events), c)
  {
    DeliveredAreReplays(events);
    var trace := Delivered(events);
    forall i | 0 <= i < |trace| ensures !trace[i].Live? {
      assert trace[i] in trace;
    }
  }

  lemma LiveInPage(live: seq<LiveEvent>, events: seq<RawEvent>, next: nat, c: nat)
    ensures LiveIn(Arrivals(live) + Delivered(events), c) <==> Accepts(live, c)
    ensures LiveIn(PageTrace(live, events, next), c) <==> Accepts(live, c)
  {
    LiveInArrivals(live, c);
    LiveInDelivered(events, c);
    LiveInAppend(Arrivals(live), Delivered(events), c);
    LiveInAppend(Arrivals(live) + Delivered(events), [Commit(next)], c);
    hide Arrivals, Delivered, Accepts;
  }

  lemma ArrivesFirst(live: LiveFeed, k: nat, upto: nat, c: nat)
    requires k < upto
    ensures ArrivesLive(live, k, upto, c) <==> Accepts(live(k), c) || ArrivesLive(live, k + 1, upto, c)
  {
    hide Accepts;
    if Accepts(live(k), c) {
      assert k <= k < upto;
    }
  }

  /** What arrives live during a run is what arrives during its reads. */
  lemma {:induction false} RunTakesLive(server: Server, live: LiveFeed, cursor: nat, k: nat, budget: nat,
                                        latest: Option<nat>, read: nat, c: nat)
    requires k < budget
    ensures FateOf(server, cursor, k, budget).readCount > k
    ensures LiveIn(Run(server, live, cursor, k, budget, latest, read).trace, c)
       <==> ArrivesLive(live, k, FateOf(server, cursor, k, budget).readCount, c)
    decreases budget - k
  {
    var page := server(k, cursor);
    var events := if page.Page? then page.events else [];
    var next := if Readable(page, cursor) then page.nextCursor.value else cursor;
    LiveInArrivals(live(k), c);
    LiveInPage(live(k), events, next, c);
    if Readable(page, cursor) && AllNamed(events) && page.hasMore && next > cursor && k + 1 < budget {
      var latest', read' := Latest(page, latest), read + |events|;
      RunTakesLive(server, live, next, k + 1, budget, latest', read', c);
      LiveInAppend(PageTrace(live(k), events, next), Run(server, live, next, k + 1, budget, latest', read').trace, c);
    }
    ArrivesFirst(live, k, FateOf(server, cursor, k, budget).readCount, c);
    hide LiveIn, Accepts, Arrivals, Delivered, PageTrace;
  }

  /** A run commits and replays exactly as far as the pages reach, plus what a broken last page delivers. */
  lemma {:induction false} RunFollowsFate(server: Server, live: LiveFeed, log: seq<LogEvent>,
                                          cursor: nat, k: nat, budget: nat, latest: Option<nat>, read: nat)
    requires k < budget && Increasing(log) && Serves(server, log)
    ensures var trace, f := Run(server, live, cursor, k, budget, latest, read).trace, FateOf(server, cursor, k, budget);
            && cursor <= f.reached && LastCommit(trace, cursor) == f.reached
            && ReplayedEvents(trace) == Slice(log, cursor, f.reached) + f.leftover
    decreases budget - k
  {
    var page := server(k, cursor);
    SliceEmpty(log, cursor);
    if !Readable(page, cursor) {
      NothingCommitted(live(k), [], cursor);
    } else if !AllNamed(page.events) {
      NothingCommitted(live(k), page.events, cursor);
    } else {
      var next := page.nextCursor.value;
      PageRises(live(k), page.events, cursor, next);
      PageReplays(live(k), page.events, next);
      if page.hasMore && next > cursor && k + 1 < budget {
        FateAfterPage(server, live, log, cursor, k, budget, latest, read);
      }
    }
    hide Arrivals, Delivered, LastCommit, ReplayedEvents, CommitsRise, Slice;
  }

  lemma NothingCommitted(live: seq<LiveEvent>, events: seq<RawEvent>, cursor: nat)
    ensures LastCommit(Arrivals(live) + Delivered(events), cursor) == cursor
    ensures ReplayedEvents(Arrivals(live) + Delivered(events)) == ReplayedEvents(Delivered(events))
    ensures Delivered([]) == [] && Arrivals(live) + [] == Arrivals(live) && ReplayedEvents([]) == []
  {
    NoCommitBeforeEnd(live, events);
    NoCommitsKeepStart(Arrivals(live) + Delivered(events), cursor);
    ArrivalsReplayNothing(live);
    ReplayedAppend(Arrivals(live), Delivered(events));
  }

  lemma RunContinues(server: Server, live: LiveFeed, cursor: nat, k: nat, budget: nat, latest: Option<nat>, read: nat)
    requires k + 1 < budget
    requires var page := server(k, cursor);
             Readable(page, cursor) && AllNamed(page.events) && page.hasMore && page.nextCursor.value > cursor
    ensures var page := server(k, cursor);
            var next := page.nextCursor.value;
            && FateOf(server, cursor, k, budget) == FateOf(server, next, k + 1, budget)
            && Run(server, live, cursor, k, budget, latest, read).trace
               == PageTrace(live(k), page.events, next)
                  + Run(server, live, next, k + 1, budget, Latest(page, latest), read + |page.events|).trace
  {
    hide PageTrace;
  }

  lemma FateAfterPage(server: Server, live: LiveFeed, log: seq<LogEvent>,
                      cursor: nat, k: nat, budget: nat, latest: Option<nat>, read: nat)
    requires k + 1 < budget && Increasing(log) && Serves(server, log)
    requires var page := server(k, cursor);
             Readable(page, cursor) && AllNamed(page.events) && page.hasMore && page.nextCursor.value > cursor
    ensures var trace, f := Run(server, live, cursor, k, budget, latest, read).trace, FateOf(server, cursor, k, budget);
            && cursor <= f.reached && LastCommit(trace, cursor) == f.reached
            && ReplayedEvents(trace) == Slice(log, cursor, f.reached) + f.leftover
    decreases budget - k, 0
  {
    var page := server(k, cursor);
    var next := page.nextCursor.value;
    var here, rest := PageTrace(live(k), page.events, next),
                      Run(server, live, next, k + 1, budget, Latest(page, latest), read + |page.events|).trace;
    RunContinues(server, live, cursor, k, budget, latest, read);
    PageRises(live(k), page.events, cursor, next);
    PageReplays(live(k), page.events, next);
    assert ReplayedEvents(here) == Slice(log, cursor, next);
    hide Run, FateOf, Readable, AllNamed, CommitsRise, PageTrace, LastCommit, ReplayedEvents, Slice;
    RunFollowsFate(server, live, log, next, k + 1, budget, Latest(page, latest), read + |page.events|);
    JoinFates(here, rest, log, cursor, next, FateOf(server, next, k + 1, budget));
  }

  lemma JoinFates(here: seq<Trace>, rest: seq<Trace>, log: seq<LogEvent>, cursor: nat, next: nat, f: Fate)
    requires Increasing(log) && cursor <= next <= f.reached
    requires LastCommit(here, cursor) == next && ReplayedEvents(here) == Slice(log, cursor, next)
    requires LastCommit(rest, next) == f.reached && ReplayedEvents(rest) == Slice(log, next, f.reached) + f.leftover
    ensures LastCommit(here + rest, cursor) == f.reached
    ensures ReplayedEvents(here + rest) == Slice(log, cursor, f.reached) + f.leftover
  {
    LastCommitAppend(here, rest, cursor);
    ReplayedAppend(here, rest);
    SliceJoins(log, cursor, next, f.reached);
    AppendAssociates(Slice(log, cursor, next), Slice(log, next, f.reached), f.leftover);
    hide LastCommit, ReplayedEvents, Slice;
  }

  lemma {:induction false} SliceEmpty(log: seq<LogEvent>, cursor: nat)
    ensures Slice(log, cursor, cursor) == []
  {
    if log != [] {
      SliceEmpty(log[1..], cursor);
    }
  }

  lemma {:induction false} SliceHas(log: seq<LogEvent>, from: nat, upto: nat, e: LogEvent)
    ensures e in Slice(log, from, upto) <==> e in log && from < e.cursor <= upto
  {
    if log != [] {
      SliceHas(log[1..], from, upto, e);
      assert log == [log[0]] + log[1..];
    }
  }

  /** A committed or accepted live cursor at or beyond x. */
  ghost predicate Carries(trace: seq<Trace>, x: nat) {
    exists i :: 0 <= i < |trace| && CarriesAt(trace[i], x)
  }

  predicate CarriesAt(entry: Trace, x: nat) {
    match entry
    case Live(event) => event.accepted && event.cursor.Some? && event.cursor.value >= x
    case Replayed(_) => false
    case Commit(cursor) => cursor >= x
  }

  /** From any stored cursor, or none, a trace takes it past x exactly when it was there or something carries it. */
  lemma {:induction false} PassesIff(held: Option<nat>, trace: seq<Trace>, x: nat)
    ensures AtLeast(CursorAfter(held, trace), Some(x)) <==> AtLeast(held, Some(x)) || Carries(trace, x)
  {
    if trace != [] {
      var before, last := trace[..|trace| - 1], trace[|trace| - 1];
      PassesIff(held, before, x);
      if Carries(before, x) {
        var i :| 0 <= i < |before| && CarriesAt(before[i], x);
        assert CarriesAt(trace[i], x);
      }
      if Carries(trace, x) && !CarriesAt(last, x) {
        var i :| 0 <= i < |trace| && CarriesAt(trace[i], x);
        assert CarriesAt(before[i], x);
      }
    }
  }

  lemma CommitsUpTo(trace: seq<Trace>, start: nat)
    requires CommitsRise(trace, start)
    ensures forall i :: 0 <= i < |trace| && trace[i].Commit? ==> trace[i].cursor <= LastCommit(trace, start)
    decreases |trace|
  {
    if trace != [] {
      var before := trace[..|trace| - 1];
      forall i | 0 <= i < |before| && before[i].Commit? ensures before[i].cursor >= LastCommit(before[..i], start) {
        assert before[i] == trace[i] && before[..i] == trace[..i];
      }
      CommitsUpTo(before, start);
      forall i | 0 <= i < |before| && trace[i].Commit? ensures trace[i].cursor <= LastCommit(before, start) {
        assert before[i] == trace[i];
      }
    }
  }

  /** Beyond the last commit only a live event carries a cursor. */
  lemma CarriesLiveIff(trace: seq<Trace>, start: nat, x: nat)
    requires CommitsRise(trace, start) && LastCommit(trace, start) < x
    ensures Carries(trace, x) <==> exists c: nat :: c >= x && LiveIn(trace, c)
  {
    CommitsUpTo(trace, start);
    if Carries(trace, x) {
      var i :| 0 <= i < |trace| && CarriesAt(trace[i], x);
      assert AcceptedCursor(trace, i, trace[i].event.cursor.value);
      assert LiveIn(trace, trace[i].event.cursor.value);
    }
    if c: nat :| c >= x && LiveIn(trace, c) {
      var i :| 0 <= i < |trace| && AcceptedCursor(trace, i, c);
      assert CarriesAt(trace[i], x);
    }
  }

  /** An event after the asked cursor that the stored cursor has passed although it was neither replayed nor accepted live. */
  ghost predicate Missed(e: LogEvent, trace: seq<Trace>, log: seq<LogEvent>, start: nat, held: Option<nat>) {
    && e in log && start < e.cursor && AtLeast(CursorAfter(held, trace), Some(e.cursor))
    && e !in ReplayedEvents(trace) && !LiveIn(trace, e.cursor)
  }

  /** Beyond the pages that could be read, and passed by the cursor held before or by a later live event. */
  ghost predicate Overtaken(e: LogEvent, server: Server, live: LiveFeed, log: seq<LogEvent>, start: nat, held: Option<nat>, budget: nat)
    requires 0 < budget
  {
    var f := FateOf(server, start, 0, budget);
    && e in log && f.reached < e.cursor && e !in f.leftover && !ArrivesLive(live, 0, f.readCount, e.cursor)
    && (AtLeast(held, Some(e.cursor)) || exists c: nat :: c >= e.cursor && ArrivesLive(live, 0, f.readCount, c))
  }

  /** From any stored cursor: a run misses an event exactly when the pages stop before it and something else is beyond it. */
  lemma ReplayMissesIff(server: Server, live: LiveFeed, log: seq<LogEvent>, start: nat, held: Option<nat>, budget: nat, e: LogEvent)
    requires 0 < budget && Increasing(log) && Serves(server, log)
    ensures Missed(e, Run(server, live, start, 0, budget, None, 0).trace, log, start, held)
       <==> Overtaken(e, server, live, log, start, held, budget)
  {
    var trace, f := Run(server, live, start, 0, budget, None, 0).trace, FateOf(server, start, 0, budget);
    RunFollowsFate(server, live, log, start, 0, budget, None, 0);
    RunCommitsRise(server, live, start, 0, budget, None, 0);
    PassesIff(held, trace, e.cursor);
    SliceHas(log, start, f.reached, e);
    forall c: nat ensures LiveIn(trace, c) <==> ArrivesLive(live, 0, f.readCount, c) {
      RunTakesLive(server, live, start, 0, budget, None, 0, c);
    }
    if f.reached < e.cursor {
      CarriesLiveIff(trace, start, e.cursor);
    }
    hide Run, FateOf, ArrivesLive, CursorAfter, LastCommit, ReplayedEvents, Slice, CommitsRise, Carries, LiveIn;
  }

  ghost predicate PagesReachLive(server: Server, live: LiveFeed, start: nat, budget: nat)
    requires 0 < budget
  {
    var f := FateOf(server, start, 0, budget);
    forall c: nat :: ArrivesLive(live, 0, f.readCount, c) ==> c <= f.reached
  }

  /** Asked from the stored cursor, and with pages that reach every cursor accepted live, a run misses nothing. */
  lemma ReachingLiveLeavesNoGap(server: Server, live: LiveFeed, log: seq<LogEvent>, start: nat, held: Option<nat>, budget: nat)
    requires 0 < budget && Increasing(log) && Serves(server, log)
    requires PagesReachLive(server, live, start, budget) && (held.Some? ==> held.value <= start)
    ensures forall e :: !Missed(e, Run(server, live, start, 0, budget, None, 0).trace, log, start, held)
  {
    RunFollowsFate(server, live, log, start, 0, budget, None, 0);
    forall e ensures !Missed(e, Run(server, live, start, 0, budget, None, 0).trace, log, start, held) {
      ReplayMissesIff(server, live, log, start, held, budget, e);
      NotOvertaken(e, server, live, log, start, held, budget);
    }
  }

  lemma NotOvertaken(e: LogEvent, server: Server, live: LiveFeed, log: seq<LogEvent>, start: nat, held: Option<nat>, budget: nat)
    requires 0 < budget && PagesReachLive(server, live, start, budget)
    requires start <= FateOf(server, start, 0, budget).reached && (held.Some? ==> held.value <= start)
    ensures !Overtaken(e, server, live, log, start, held, budget)
  {
  }

  /** The failing family: a live event arrives, the read fails, and the stored cursor has passed undelivered events. */
  lemma LiveJumpHidesGap()
    ensures var server: Server := (k, c) => CallFailed;
            var live: LiveFeed := k => [LiveEvent(Some(9), true)];
            var log := [LogEvent(5, "e"), LogEvent(9, "f")];
            var run := Run(server, live, 0, 0, 1, None, 0);
            && Serves(server, log) && run.result.Err?
            && CursorAfter(Some(0), run.trace) == Some(9)
            && LogEvent(5, "e") in Slice(log, 0, 9) && ReplayedEvents(run.trace) == []
  {
    var server: Server := (k, c) => CallFailed;
    var live: LiveFeed := k => [LiveEvent(Some(9), true)];
    var log := [LogEvent(5, "e"), LogEvent(9, "f")];
    var run := Run(server, live, 0, 0, 1, None, 0);
    assert run.trace == [Live(LiveEvent(Some(9), true))];
    assert run.trace[..0] == [] && run.trace[1..] == [];
    assert CursorAfter(Some(0), []) == Some(0);
    assert Slice(log, 0, 9)[0] == log[0];
  }
}
