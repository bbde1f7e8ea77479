/** Broadcasting notifications: a bounded dedupe window, a replay ring and one-shot waiters. */
module NotificationHub {
  import opened Wrappers

  // One place inside a message where an event identity may be written.
  datatype Candidate = Candidate(eventId: string, cursor: Option<string>, event: string)

  datatype Notification = Notification(candidates: seq<Candidate>, body: string)

  type Stamped = (real, Notification)
  type Accepted = (real, string)

  function FirstEventId(candidates: seq<Candidate>): Option<string> {
    if candidates == [] then None
    else if candidates[0].eventId != "" then Some("event:" + candidates[0].eventId)
    else FirstEventId(candidates[1..])
  }

  function FirstCursor(candidates: seq<Candidate>): Option<string> {
    if candidates == [] then None
    else if candidates[0].cursor.Some? && candidates[0].event != ""
    then Some("cursor:" + candidates[0].cursor.value + ":" + candidates[0].event)
    else FirstCursor(candidates[1..])
  }

  /** The stable identity of a control event, if it has one. */
  function ControlEventKey(message: Notification): Option<string> {
    if FirstEventId(message.candidates).Some? then FirstEventId(message.candidates)
    else FirstCursor(message.candidates)
  }

  // ---- When two messages are one event ----

  /** The first candidate with an event id is number i. */
  predicate IdAt(candidates: seq<Candidate>, i: int) {
    && 0 <= i < |candidates| && candidates[i].eventId != ""
    && forall j :: 0 <= j < i ==> candidates[j].eventId == ""
  }

  /** No candidate has an event id, and the first with a cursor and an event name is number i. */
  predicate CursorAt(candidates: seq<Candidate>, i: int) {
    && 0 <= i < |candidates| && candidates[i].cursor.Some? && candidates[i].event != ""
    && (forall j :: 0 <= j < |candidates| ==> candidates[j].eventId == "")
    && (forall j :: 0 <= j < i ==> candidates[j].cursor.None? || candidates[j].event == "")
  }

  /** Some candidate has an event id, or both a cursor and an event name. */
  predicate Keyed(message: Notification) {
    exists i :: 0 <= i < |message.candidates| &&
      (message.candidates[i].eventId != "" || (message.candidates[i].cursor.Some? && message.candidates[i].event != ""))
  }

  /** One event twice: the same event id, or without any the same cursor and name. */
  ghost predicate SameEvent(a: Notification, b: Notification) {
    || (exists i, j :: IdAt(a.candidates, i) && IdAt(b.candidates, j) && a.candidates[i].eventId == b.candidates[j].eventId)
    || (exists i, j :: CursorAt(a.candidates, i) && CursorAt(b.candidates, j)
                       && a.candidates[i].cursor.value + ":" + a.candidates[i].event
                          == b.candidates[j].cursor.value + ":" + b.candidates[j].event)
  }

  lemma {:induction false} FirstIdIs(candidates: seq<Candidate>) returns (i: int)
    ensures FirstEventId(candidates).None? ==> forall j :: 0 <= j < |candidates| ==> candidates[j].eventId == ""
    ensures FirstEventId(candidates).Some? ==>
      IdAt(candidates, i) && FirstEventId(candidates) == Some("event:" + candidates[i].eventId)
  {
    i := 0;
    if candidates != [] && candidates[0].eventId == "" {
      var k := FirstIdIs(candidates[1..]);
      i := k + 1;
      forall j | 1 <= j < |candidates| ensures candidates[j] == candidates[1..][j - 1] {
      }
    }
  }

  lemma {:induction false} FirstCursorIs(candidates: seq<Candidate>) returns (i: int)
    ensures FirstCursor(candidates).None? ==>
      forall j :: 0 <= j < |candidates| ==> candidates[j].cursor.None? || candidates[j].event == ""
    ensures FirstCursor(candidates).Some? ==>
      && 0 <= i < |candidates| && candidates[i].cursor.Some? && candidates[i].event != ""
      && (forall j :: 0 <= j < i ==> candidates[j].cursor.None? || candidates[j].event == "")
      && FirstCursor(candidates) == Some("cursor:" + candidates[i].cursor.value + ":" + candidates[i].event)
  {
    i := 0;
    if candidates != [] && (candidates[0].cursor.None? || candidates[0].event == "") {
      var k := FirstCursorIs(candidates[1..]);
      i := k + 1;
      forall j | 1 <= j < |candidates| ensures candidates[j] == candidates[1..][j - 1] {
      }
    }
  }

  /** A key comes from the first event id, or without any from the first cursor with a name. */
  lemma KeyIs(message: Notification) returns (i: int)
    ensures ControlEventKey(message).Some? <==> Keyed(message)
    ensures ControlEventKey(message).Some? ==>
      var c := message.candidates;
      || (IdAt(c, i) && ControlEventKey(message).value == "event:" + c[i].eventId)
      || (CursorAt(c, i) && ControlEventKey(message).value == "cursor:" + c[i].cursor.value + ":" + c[i].event)
  {
    var k := FirstIdIs(message.candidates);
    i := FirstCursorIs(message.candidates);
    if FirstEventId(message.candidates).Some? {
      i := k;
    }
    hide FirstEventId, FirstCursor;
  }

  lemma PrefixedTexts(x: string, y: string, cursor: string, event: string, cursor': string, event': string)
    ensures "event:" + x == "event:" + y <==> x == y
    ensures "cursor:" + cursor + ":" + event == "cursor:" + cursor' + ":" + event'
       <==> cursor + ":" + event == cursor' + ":" + event'
    ensures "event:" + x != "cursor:" + cursor + ":" + event
  {
    assert ("event:" + x)[6..] == x && ("event:" + y)[6..] == y;
    assert "cursor:" + cursor + ":" + event == "cursor:" + (cursor + ":" + event);
    assert "cursor:" + cursor' + ":" + event' == "cursor:" + (cursor' + ":" + event');
    assert ("cursor:" + (cursor + ":" + event))[7..] == cursor + ":" + event;
    assert ("cursor:" + (cursor' + ":" + event'))[7..] == cursor' + ":" + event';
    assert ("event:" + x)[0] == 'e' && ("cursor:" + cursor + ":" + event)[0] == 'c';
  }

  /** Two messages share a key exactly when they are one event; a message by id never shares one with a message by cursor. */
  lemma SameKeyIff(a: Notification, b: Notification)
    ensures ControlEventKey(a).Some? && ControlEventKey(a) == ControlEventKey(b) <==> SameEvent(a, b)
  {
    var i := KeyIs(a);
    var j := KeyIs(b);
    var x, y := a.candidates, b.candidates;
    var kx, ky := ControlEventKey(a), ControlEventKey(b);
    hide ControlEventKey;
    PlacesAreUnique(x);
    PlacesAreUnique(y);
    if kx.Some? && ky.Some? {
      if IdAt(x, i) && IdAt(y, j) {
        PrefixedTexts(x[i].eventId, y[j].eventId, "", "", "", "");
      } else if CursorAt(x, i) && CursorAt(y, j) {
        PrefixedTexts("", "", x[i].cursor.value, x[i].event, y[j].cursor.value, y[j].event);
      } else if IdAt(x, i) {
        PrefixedTexts(x[i].eventId, "", y[j].cursor.value, y[j].event, "", "");
      } else {
        PrefixedTexts(y[j].eventId, "", x[i].cursor.value, x[i].event, "", "");
      }
    }
    if SameEvent(a, b) {
      assert Keyed(a) && Keyed(b);
    }
  }

  lemma PlacesAreUnique(candidates: seq<Candidate>)
    ensures forall i, j :: IdAt(candidates, i) && IdAt(candidates, j) ==> i == j
    ensures forall i, j :: CursorAt(candidates, i) && CursorAt(candidates, j) ==> i == j
    ensures forall i, j :: IdAt(candidates, i) ==> !CursorAt(candidates, j)
  {
  }

  function AtLeastZero(x: real): real {
    if x < 0.0 then 0.0 else x
  }

  // ---- The dedupe window ----

  predicate SortedTimes(entries: seq<Accepted>) {
    forall i, j :: 0 <= i < j < |entries| ==> entries[i].0 <= entries[j].0
  }

  function Evict(order: seq<Accepted>, cutoff: real, limit: nat): seq<Accepted> {
    if order != [] && (order[0].0 < cutoff || |order| >= limit) then Evict(order[1..], cutoff, limit) else order
  }

  /** Entry i of the full acceptance log is still remembered: young enough, and not pushed out. */
  predicate Live(log: seq<Accepted>, i: nat, cutoff: real, limit: nat)
    requires i < |log|
  {
    log[i].0 >= cutoff && |log| - i < limit
  }

  /** Unbounded reference: the key was accepted within the window. */
  ghost predicate Recent(log: seq<Accepted>, key: string, cutoff: real, limit: nat) {
    exists i :: 0 <= i < |log| && log[i].1 == key && Live(log, i, cutoff, limit)
  }

  function Keys(entries: seq<Accepted>): set<string> {
    set e | e in entries :: e.1
  }

  predicate DistinctKeys(entries: seq<Accepted>) {
    forall i, j :: 0 <= i < j < |entries| ==> entries[i].1 != entries[j].1
  }

  lemma KeysSnoc(entries: seq<Accepted>, entry: Accepted)
    requires DistinctKeys(entries) && entry.1 !in Keys(entries)
    ensures Keys(entries + [entry]) == Keys(entries) + {entry.1} && DistinctKeys(entries + [entry])
  {
    forall i | 0 <= i < |entries| ensures entries[i].1 != entry.1 {
      assert entries[i] in entries;
    }
    assert entry in entries + [entry];
    forall e | e in entries ensures e in entries + [entry] {
    }
  }

  lemma KeysTail(entries: seq<Accepted>)
    requires entries != [] && DistinctKeys(entries)
    ensures Keys(entries[1..]) == Keys(entries) - {entries[0].1} && DistinctKeys(entries[1..])
  {
    assert entries == [entries[0]] + entries[1..];
    forall e | e in entries[1..] ensures e.1 != entries[0].1 {
      var i :| 0 <= i < |entries[1..]| && entries[1..][i] == e;
      assert entries[i + 1] == e;
    }
  }

  /** The queue holds a suffix of the log, and everything before it is dead at this cutoff. */
  predicate Remembers(log: seq<Accepted>, order: seq<Accepted>, cutoff: real, limit: nat) {
    && |order| <= |log| && order == log[|log| - |order|..]
    && forall i :: 0 <= i < |log| - |order| ==> !Live(log, i, cutoff, limit)
  }

  /** Evicting from the front leaves exactly the live suffix of the log. */
  lemma {:induction false} EvictLeavesLive(log: seq<Accepted>, order: seq<Accepted>, cutoff: real, limit: nat)
    requires SortedTimes(log) && Remembers(log, order, cutoff, limit)
    ensures Remembers(log, Evict(order, cutoff, limit), cutoff, limit)
    ensures |Evict(order, cutoff, limit)| <= |order|
    ensures limit > 0 ==> |Evict(order, cutoff, limit)| < limit
    ensures var kept := Evict(order, cutoff, limit);
            forall i :: |log| - |kept| <= i < |log| ==> Live(log, i, cutoff, limit)
    decreases |order|
  {
    if order != [] {
      var first := |log| - |order|;
      assert order[0] == log[first];
      if order[0].0 < cutoff || |order| >= limit {
        assert !Live(log, first, cutoff, limit);
        assert order[1..] == log[first + 1..];
        EvictLeavesLive(log, order[1..], cutoff, limit);
      }
    }
  }

  /** After eviction the queue answers exactly like the unbounded log. */
  lemma EvictedDecidesRecent(log: seq<Accepted>, order: seq<Accepted>, key: string, cutoff: real, limit: nat)
    requires SortedTimes(log) && Remembers(log, order, cutoff, limit)
    ensures key in Keys(Evict(order, cutoff, limit)) <==> Recent(log, key, cutoff, limit)
  {
    EvictLeavesLive(log, order, cutoff, limit);
    var kept := Evict(order, cutoff, limit);
    var first := |log| - |kept|;
    if key in Keys(kept) {
      var e :| e in kept && e.1 == key;
      var j :| 0 <= j < |kept| && kept[j] == e;
      assert log[first + j] == e;
    }
    if Recent(log, key, cutoff, limit) {
      var i :| 0 <= i < |log| && log[i].1 == key && Live(log, i, cutoff, limit);
      assert i >= first;
      assert kept[i - first] == log[i];
      assert log[i] in kept;
    }
  }

  /** A later, higher cutoff and a longer log only make more entries dead. */
  lemma RemembersLater(log: seq<Accepted>, order: seq<Accepted>, cutoff: real, later: real, limit: nat)
    requires Remembers(log, order, cutoff, limit) && cutoff <= later
    ensures Remembers(log, order, later, limit)
  {
    forall i | 0 <= i < |log| - |order| ensures !Live(log, i, later, limit) {
      assert !Live(log, i, cutoff, limit);
    }
  }

  lemma RemembersAccepted(log: seq<Accepted>, order: seq<Accepted>, entry: Accepted, cutoff: real, limit: nat)
    requires Remembers(log, order, cutoff, limit)
    ensures Remembers(log + [entry], order + [entry], cutoff, limit)
  {
    var longer := log + [entry];
    forall i | 0 <= i < |log| - |order| ensures !Live(longer, i, cutoff, limit) {
      assert !Live(log, i, cutoff, limit) && longer[i] == log[i];
    }
  }

  /** One key is accepted twice only when more than ttl has passed or limit - 1 other keys came between. */
  predicate Spaced(log: seq<Accepted>, ttl: real, limit: nat) {
    forall i, j :: 0 <= i < j < |log| && log[i].1 == log[j].1 ==> log[j].0 - log[i].0 > ttl || j - i >= limit
  }

  lemma SpacedAccepted(log: seq<Accepted>, now: real, key: string, ttl: real, limit: nat)
    requires Spaced(log, ttl, limit) && !Recent(log, key, now - ttl, limit)
    ensures Spaced(log + [(now, key)], ttl, limit)
  {
    forall i | 0 <= i < |log| && log[i].1 == key ensures now - log[i].0 > ttl || |log| - i >= limit {
      assert !Live(log, i, now - ttl, limit);
    }
  }

  /** The dedupe state against the full acceptance log. */
  ghost predicate WindowOk(log: seq<Accepted>, order: seq<Accepted>, keys: set<string>, clock: real, ttl: real, limit: nat) {
    && SortedTimes(log) && (forall e :: e in log ==> e.0 <= clock) && Spaced(log, ttl, limit)
    && Remembers(log, order, clock - ttl, limit) && |order| <= limit
    && keys == Keys(order) && DistinctKeys(order)
  }

  lemma WindowLater(log: seq<Accepted>, order: seq<Accepted>, keys: set<string>, clock: real, now: real, ttl: real, limit: nat)
    requires WindowOk(log, order, keys, clock, ttl, limit) && clock <= now
    ensures WindowOk(log, order, keys, now, ttl, limit)
  {
    RemembersLater(log, order, clock - ttl, now - ttl, limit);
  }

  lemma WindowAccepts(log: seq<Accepted>, order: seq<Accepted>, keys: set<string>, now: real, key: string, ttl: real, limit: nat)
    requires WindowOk(log, order, keys, now, ttl, limit)
    requires |order| < limit && key !in keys && !Recent(log, key, now - ttl, limit)
    ensures WindowOk(log + [(now, key)], order + [(now, key)], keys + {key}, now, ttl, limit)
  {
    SpacedAccepted(log, now, key, ttl, limit);
    RemembersAccepted(log, order, (now, key), now - ttl, limit);
    KeysSnoc(order, (now, key));
  }

  /** Drops expired and surplus keys from the front of the queue. */
  method EvictExpired(order: seq<Accepted>, keys: set<string>, now: real, ttl: real, limit: nat, ghost log: seq<Accepted>)
    returns (order': seq<Accepted>, keys': set<string>)
    requires limit > 0 && WindowOk(log, order, keys, now, ttl, limit)
    ensures WindowOk(log, order', keys', now, ttl, limit) && |order'| < limit
    ensures forall key :: key in keys' <==> Recent(log, key, now - ttl, limit)
  {
    var cutoff := now - ttl;
    order', keys' := order, keys;
    while order' != [] && (order'[0].0 < cutoff || |order'| >= limit)
      invariant Evict(order', cutoff, limit) == Evict(order, cutoff, limit)
      invariant keys' == Keys(order') && DistinctKeys(order')
      decreases |order'|
    {
      KeysTail(order');
      keys' := keys' - {order'[0].1};
      order' := order'[1..];
    }
    EvictLeavesLive(log, order, cutoff, limit);
    forall key ensures key in keys' <==> Recent(log, key, cutoff, limit) {
      EvictedDecidesRecent(log, order, key, cutoff, limit);
    }
  }

  /** Evicts, then accepts the key unless it is still remembered. */
  method TryAccept(order: seq<Accepted>, keys: set<string>, key: string, now: real, ttl: real, limit: nat,
                   ghost log: seq<Accepted>, ghost clock: real)
    returns (order': seq<Accepted>, keys': set<string>, isNew: bool)
    requires limit > 0 && clock <= now && WindowOk(log, order, keys, clock, ttl, limit)
    ensures isNew <==> !Recent(log, key, now - ttl, limit)
    ensures WindowOk(if isNew then log + [(now, key)] else log, order', keys', now, ttl, limit)
  {
    WindowLater(log, order, keys, clock, now, ttl, limit);
    order', keys' := EvictExpired(order, keys, now, ttl, limit, log);
    isNew := key !in keys';
    if isNew {
      WindowAccepts(log, order', keys', now, key, ttl, limit);
      keys' := keys' + {key};
      order' := order' + [(now, key)];
    }
  }

  /** One call per element: what a run of timed, keyed publications accepts. */
  ghost function AcceptedBy(calls: seq<Accepted>, ttl: real, limit: nat): seq<Accepted> {
    if calls == [] then []
    else
      var log, call := AcceptedBy(calls[..|calls| - 1], ttl, limit), calls[|calls| - 1];
      if Recent(log, call.1, call.0 - ttl, limit) then log else log + [call]
  }

  /** Over every run, an accepted repeat comes after more than ttl, or after at least limit acceptances. */
  lemma {:induction false} RunsAreSpaced(calls: seq<Accepted>, ttl: real, limit: nat)
    ensures Spaced(AcceptedBy(calls, ttl, limit), ttl, limit)
  {
    if calls != [] {
      var before, call := calls[..|calls| - 1], calls[|calls| - 1];
      RunsAreSpaced(before, ttl, limit);
      var log := AcceptedBy(before, ttl, limit);
      if !Recent(log, call.1, call.0 - ttl, limit) {
        SpacedAccepted(log, call.0, call.1, ttl, limit);
      }
    }
  }

  /** The log of a run holds one of its earlier calls, its key accepted at most ttl ago and fewer than limit acceptances back. */
  ghost predicate RepeatsRemembered(log: seq<Accepted>, call: Accepted, ttl: real, limit: nat) {
    exists i :: 0 <= i < |log| && log[i].1 == call.1 && call.0 - log[i].0 <= ttl && |log| - i < limit
  }

  lemma {:induction false} LogOnlyGrows(calls: seq<Accepted>, n: nat, ttl: real, limit: nat)
    requires n <= |calls|
    ensures AcceptedBy(calls[..n], ttl, limit) <= AcceptedBy(calls, ttl, limit)
    decreases |calls|
  {
    if n == |calls| {
      assert calls[..n] == calls;
    } else {
      LogOnlyGrows(calls[..|calls| - 1], n, ttl, limit);
      assert calls[..|calls| - 1][..n] == calls[..n];
    }
  }

  /** In every run, the n-th call is refused exactly when it repeats a remembered one; else it enters the log for good. */
  lemma RefusedIffRemembered(calls: seq<Accepted>, n: nat, ttl: real, limit: nat)
    requires n < |calls|
    ensures var log, next := AcceptedBy(calls[..n], ttl, limit), AcceptedBy(calls[..n + 1], ttl, limit);
            && next <= AcceptedBy(calls, ttl, limit)
            && next == if RepeatsRemembered(log, calls[n], ttl, limit) then log else log + [calls[n]]
  {
    LogOnlyGrows(calls, n + 1, ttl, limit);
    assert calls[..n + 1][..n] == calls[..n];
    var log := AcceptedBy(calls[..n], ttl, limit);
    if RepeatsRemembered(log, calls[n], ttl, limit) {
      var i :| 0 <= i < |log| && log[i].1 == calls[n].1 && calls[n].0 - log[i].0 <= ttl && |log| - i < limit;
      assert Live(log, i, calls[n].0 - ttl, limit);
    }
  }

  // Every keyed message a hub has accepted, against the keys in its log.
  ghost predicate KeysOf(log: seq<Accepted>, accepted: seq<Stamped>) {
    && |log| == |accepted|
    && forall i :: 0 <= i < |log| ==> log[i].0 == accepted[i].0 && ControlEventKey(accepted[i].1) == Some(log[i].1)
  }

  /** One of these messages was the same event, at most ttl ago and fewer than limit acceptances back. */
  ghost predicate SeenLately(accepted: seq<Stamped>, message: Notification, now: real, ttl: real, limit: nat) {
    exists i :: 0 <= i < |accepted| && SameEvent(accepted[i].1, message)
                && now - accepted[i].0 <= ttl && |accepted| - i < limit
  }

  /** The message as an entry of the log, when it has a key. */
  function EntryOf(message: Notification, now: real): seq<Accepted> {
    if ControlEventKey(message).Some? then [(now, ControlEventKey(message).value)] else []
  }

  ghost predicate Repeats(log: seq<Accepted>, message: Notification, now: real, ttl: real, limit: nat) {
    ControlEventKey(message).Some? && Recent(log, ControlEventKey(message).value, now - ttl, limit)
  }

  lemma RecentIsSeenLately(log: seq<Accepted>, accepted: seq<Stamped>, message: Notification, now: real, ttl: real, limit: nat)
    requires KeysOf(log, accepted)
    ensures SeenLately(accepted, message, now, ttl, limit) <==> Repeats(log, message, now, ttl, limit)
  {
    hide SameEvent, ControlEventKey;
    forall i | 0 <= i < |log|
      ensures SameEvent(accepted[i].1, message) <==> Some(log[i].1) == ControlEventKey(message) {
      SameKeyIff(accepted[i].1, message);
    }
    if ControlEventKey(message).Some? && Recent(log, ControlEventKey(message).value, now - ttl, limit) {
      var key := ControlEventKey(message).value;
      var i :| 0 <= i < |log| && log[i].1 == key && Live(log, i, now - ttl, limit);
      assert SameEvent(accepted[i].1, message);
    }
    if SeenLately(accepted, message, now, ttl, limit) {
      var i :| 0 <= i < |accepted| && SameEvent(accepted[i].1, message)
               && now - accepted[i].0 <= ttl && |accepted| - i < limit;
      assert Live(log, i, now - ttl, limit);
    }
  }

  // ---- The replay ring ----

  predicate SortedStamps(entries: seq<Stamped>) {
    forall i, j :: 0 <= i < j < |entries| ==> entries[i].0 <= entries[j].0
  }

  ghost predicate RingOk(published: seq<Stamped>, clock: real) {
    SortedStamps(published) && forall e :: e in published ==> e.0 <= clock
  }

  lemma RingLater(published: seq<Stamped>, clock: real, now: real)
    requires RingOk(published, clock) && clock <= now
    ensures RingOk(published, now)
  {
  }

  lemma RingAppend(published: seq<Stamped>, clock: real, entry: Stamped, n: nat)
    requires RingOk(published, clock) && clock <= entry.0
    ensures RingOk(published + [entry], entry.0)
    ensures LastN(LastN(published, n) + [entry], n) == LastN(published + [entry], n)
  {
    LastNAppend(published, entry, n);
    forall i | 0 <= i < |published| ensures published[i].0 <= entry.0 {
      assert published[i] in published;
    }
  }

  type Matcher = Notification -> bool

  predicate Hit(entries: seq<Stamped>, i: int, cutoff: real, wanted: Matcher) {
    0 <= i < |entries| && entries[i].0 >= cutoff && wanted(entries[i].1)
  }

  /** The newest match at or after the cutoff, looking no further back than index lo. */
  ghost predicate IsLatest(entries: seq<Stamped>, lo: int, cutoff: real, wanted: Matcher, found: Option<Notification>) {
    match found
    case None => forall i :: lo <= i < |entries| ==> !Hit(entries, i, cutoff, wanted)
    case Some(message) =>
      exists i :: lo <= i < |entries| && Hit(entries, i, cutoff, wanted) && entries[i].1 == message
                  && forall j :: i < j < |entries| ==> !Hit(entries, j, cutoff, wanted)
  }

  /** A scan of the ring equals a scan of the whole history exactly when no hit has fallen off alone. */
  lemma RingIsExactIff(entries: seq<Stamped>, lo: int, cutoff: real, wanted: Matcher, found: Option<Notification>)
    requires 0 <= lo <= |entries| && IsLatest(entries, lo, cutoff, wanted, found)
    ensures IsLatest(entries, 0, cutoff, wanted, found) <==>
      ((exists i :: Hit(entries, i, cutoff, wanted)) ==> exists i :: lo <= i && Hit(entries, i, cutoff, wanted))
  {
    if found.Some? {
      var i :| lo <= i < |entries| && Hit(entries, i, cutoff, wanted) && entries[i].1 == found.value
               && forall j :: i < j < |entries| ==> !Hit(entries, j, cutoff, wanted);
      assert lo <= i && Hit(entries, i, cutoff, wanted);
    } else if IsLatest(entries, 0, cutoff, wanted, found) {
      forall i ensures !Hit(entries, i, cutoff, wanted) {
      }
    } else {
      var i :| 0 <= i < |entries| && Hit(entries, i, cutoff, wanted);
      assert i < lo;
    }
  }

  // ---- Waiters ----

  datatype Outcome = Pending | Got(message: Notification) | TimedOut | Cancelled

  /** The first place from lo on whose message was published at the cutoff or later. */
  ghost function FirstYoung(entries: seq<Stamped>, lo: nat, cutoff: real): (first: nat)
    requires lo <= |entries|
    ensures lo <= first <= |entries|
    decreases |entries| - lo
  {
    if lo == |entries| || entries[lo].0 >= cutoff then lo else FirstYoung(entries, lo + 1, cutoff)
  }

  /** In a history in order of time, the young messages are exactly those from the first young one on. */
  lemma {:induction false} YoungFromFirst(entries: seq<Stamped>, lo: nat, cutoff: real, i: nat)
    requires SortedStamps(entries) && lo <= i < |entries|
    ensures FirstYoung(entries, lo, cutoff) <= i <==> entries[i].0 >= cutoff
    decreases |entries| - lo
  {
    if entries[lo].0 < cutoff && lo < i {
      YoungFromFirst(entries, lo + 1, cutoff, i);
    }
  }

  /** A scan that finds nothing has passed over every young message. */
  lemma NothingFound(entries: seq<Stamped>, lo: nat, cutoff: real, wanted: Matcher)
    requires SortedStamps(entries) && lo <= |entries| && IsLatest(entries, lo, cutoff, wanted, None)
    ensures NoneWanted(entries, FirstYoung(entries, lo, cutoff), |entries|, wanted)
  {
    var first := FirstYoung(entries, lo, cutoff);
    forall i | first <= i < |entries| ensures !wanted(entries[i].1) {
      YoungFromFirst(entries, lo, cutoff, i);
      assert !Hit(entries, i, cutoff, wanted);
    }
  }

  // The ring is scanned with one matcher, the waiter listens with another: places [from, start) were scanned.
  class Waiter {
    const wanted: Matcher
    var outcome: Outcome
    ghost const scanned: Matcher
    ghost const from: nat
    ghost const start: nat
    ghost var until: nat

    constructor (wanted: Matcher, ghost scanned: Matcher, ghost from: nat, ghost start: nat)
      ensures this.wanted == wanted && outcome == Pending
      ensures this.scanned == scanned && this.from == from && this.start == start
    {
      this.wanted := wanted;
      outcome := Pending;
      this.scanned, this.from, this.start := scanned, from, start;
      until := start;
    }
  }

  /** No message published in [from, to) is wanted. */
  ghost predicate NoneWanted(published: seq<Stamped>, from: nat, to: nat, wanted: Matcher) {
    from <= to <= |published| && forall i :: from <= i < to ==> !wanted(published[i].1)
  }

  /** What a waiter says about everything it scanned, and its outcome about everything published since. */
  ghost predicate Honest(w: Waiter, published: seq<Stamped>)
    reads w
  {
    NoneWanted(published, w.from, w.start, w.scanned) &&
    match w.outcome
    case Pending => NoneWanted(published, w.start, |published|, w.wanted)
    case Got(message) =>
      && w.until < |published| && published[w.until].1 == message && w.wanted(message)
      && NoneWanted(published, w.start, w.until, w.wanted)
    case _ => NoneWanted(published, w.start, w.until, w.wanted)
  }

  predicate Unique(waiters: seq<Waiter>) {
    forall i, j :: 0 <= i < j < |waiters| ==> waiters[i] != waiters[j]
  }

  function Without(waiters: seq<Waiter>, w: Waiter): seq<Waiter> {
    if waiters == [] then []
    else if waiters[0] == w then waiters[1..]
    else [waiters[0]] + Without(waiters[1..], w)
  }

  lemma {:induction false} WithoutRemoves(waiters: seq<Waiter>, w: Waiter)
    requires Unique(waiters)
    ensures var r := Without(waiters, w);
            Unique(r) && forall v :: v in r <==> v in waiters && v != w
  {
    if waiters != [] {
      WithoutRemoves(waiters[1..], w);
      assert waiters == [waiters[0]] + waiters[1..];
      assert waiters[0] !in waiters[1..];
    }
  }

  datatype WaitStart = Replayed(message: Notification) | HubClosed | Registered(waiter: Waiter)

  class Hub {
    const replaySize: nat
    const ttl: real
    const limit: nat
    var replay: seq<Stamped>
    var dedupeOrder: seq<Accepted>
    var dedupeKeys: set<string>
    var waiters: seq<Waiter>
    var closed: bool

    // Everything ever published, every key ever offered to the open hub, every key ever accepted and the message
    // it came with; nothing is forgotten here.
    ghost var published: seq<Stamped>
    ghost var accepted: seq<Stamped>
    ghost var offered: seq<Accepted>
    ghost var log: seq<Accepted>
    ghost var clock: real

    ghost predicate WaitersValid()
      reads this`waiters, this`closed, this`published, waiters
    {
      && Unique(waiters)
      && (closed ==> waiters == [])
      && forall w :: w in waiters ==> Honest(w, published)
    }

    ghost predicate Valid()
      reads this, waiters
    {
      && limit > 0 && RingOk(published, clock) && WaitersValid()
      && log == AcceptedBy(offered, ttl, limit) && KeysOf(log, accepted)
      && if closed then replay == [] && dedupeOrder == [] && dedupeKeys == {}
         else replay == LastN(published, replaySize) && WindowOk(log, dedupeOrder, dedupeKeys, clock, ttl, limit)
    }

    constructor (replaySize: nat, replayTtl: real)
      ensures Valid() && !closed && published == [] && offered == [] && accepted == [] && waiters == [] && clock == 0.0
      ensures ttl >= 0.0 && (replayTtl >= 0.0 ==> ttl == replayTtl)
      ensures limit == if replaySize * 4 < 64 then 64 else replaySize * 4
    {
      this.replaySize := replaySize;
      ttl := AtLeastZero(replayTtl);
      limit := if replaySize * 4 < 64 then 64 else replaySize * 4;
      replay, dedupeOrder, dedupeKeys, waiters, closed := [], [], {}, [], false;
      published, offered, accepted, log, clock := [], [], [], [], 0.0;
    }

    /** Over the whole life of a hub, its n-th keyed call was refused exactly when it repeated a remembered one. */
    lemma HistoryFollowsRule(n: nat)
      requires Valid() && n < |offered|
      ensures Spaced(log, ttl, limit)
      ensures var before, after := AcceptedBy(offered[..n], ttl, limit), AcceptedBy(offered[..n + 1], ttl, limit);
              && before <= after <= log
              && (after == before <==> RepeatsRemembered(before, offered[n], ttl, limit))
    {
      RunsAreSpaced(offered, ttl, limit);
      RefusedIffRemembered(offered, n, ttl, limit);
    }

    /** Every pending waiter that wants the message gets it; nobody else changes. */
    method Publish(message: Notification, now: real)
      requires Valid() && clock <= now
      modifies this`replay, this`published, this`clock, waiters
      ensures Valid() && clock == now
      ensures published == if closed then old(published) else old(published) + [(now, message)]
      ensures forall w :: w in waiters ==>
        w.outcome == if old(w.outcome).Pending? && w.wanted(message) then Got(message) else old(w.outcome)
    {
      hide WindowOk, RingOk;
      ghost var before := clock;
      RingLater(published, clock, now);
      clock := now;
      if closed {
        return;
      }
      WindowLater(log, dedupeOrder, dedupeKeys, before, now, ttl, limit);
      RingAppend(published, before, (now, message), replaySize);
      replay := LastN(replay + [(now, message)], replaySize);
      published := published + [(now, message)];
      NotifyWaiters(waiters, message, old(published), published);
    }

    static method Notify(w: Waiter, message: Notification, ghost before: seq<Stamped>, ghost published: seq<Stamped>)
      requires |published| == |before| + 1 && before <= published && published[|before|].1 == message
      requires Honest(w, before)
      modifies w
      ensures Honest(w, published)
      ensures w.outcome == if old(w.outcome).Pending? && w.wanted(message) then Got(message) else old(w.outcome)
    {
      if w.outcome.Pending? && w.wanted(message) {
        w.outcome := Got(message);
        w.until := |before|;
      }
    }

    static method NotifyWaiters(waiters: seq<Waiter>, message: Notification, ghost before: seq<Stamped>, ghost published: seq<Stamped>)
      requires |published| == |before| + 1 && before <= published && published[|before|].1 == message
      requires Unique(waiters) && forall w :: w in waiters ==> Honest(w, before)
      modifies waiters
      ensures forall w :: w in waiters ==> Honest(w, published)
      ensures forall w :: w in waiters ==>
        w.outcome == if old(w.outcome).Pending? && w.wanted(message) then Got(message) else old(w.outcome)
    {
      assert forall j :: 0 <= j < |waiters| ==> waiters[j] in waiters;
      for i := 0 to |waiters|
        invariant forall j :: 0 <= j < i ==> Honest(waiters[j], published)
        invariant forall j :: 0 <= j < i ==>
          waiters[j].outcome ==
          if old(waiters[j].outcome).Pending? && waiters[j].wanted(message) then Got(message) else old(waiters[j].outcome)
        invariant forall j :: i <= j < |waiters| ==> Honest(waiters[j], before)
        invariant forall j :: i <= j < |waiters| ==> waiters[j].outcome == old(waiters[j].outcome)
      {
        Notify(waiters[i], message, before, published);
      }
    }

    /** A key is new exactly when the unbounded log did not accept it within the window. */
    method AcceptKey(key: string, now: real, ghost message: Notification) returns (isNew: bool)
      requires Valid() && !closed && clock <= now && ControlEventKey(message) == Some(key)
      modifies this`clock, this`dedupeOrder, this`dedupeKeys, this`offered, this`log, this`accepted
      ensures Valid() && clock == now
      ensures isNew <==> !Recent(old(log), key, now - ttl, limit)
      ensures offered == old(offered) + [(now, key)]
      ensures log == if isNew then old(log) + [(now, key)] else old(log)
      ensures accepted == if isNew then old(accepted) + [(now, message)] else old(accepted)
    {
      hide WindowOk, RingOk, ControlEventKey;
      RingLater(published, clock, now);
      var order, keys, taken := TryAccept(dedupeOrder, dedupeKeys, key, now, ttl, limit, log, clock);
      clock, dedupeOrder, dedupeKeys := now, order, keys;
      ghost var call := (now, key);
      assert (offered + [call])[..|offered|] == offered;
      offered := offered + [call];
      if taken {
        log := log + [call];
        accepted := accepted + [(now, message)];
      }
      return taken;
    }

    /** A message without a key always passes, a keyed one when its event was not seen lately. */
    method Admit(message: Notification, now: real) returns (isNew: bool)
      requires Valid() && !closed && clock <= now
      modifies this`clock, this`dedupeOrder, this`dedupeKeys, this`offered, this`log, this`accepted
      ensures Valid() && clock <= now
      ensures isNew <==> !SeenLately(old(accepted), message, now, ttl, limit)
      ensures accepted == if isNew && Keyed(message) then old(accepted) + [(now, message)] else old(accepted)
      ensures isNew <==> !Repeats(old(log), message, now, ttl, limit)
      ensures offered == old(offered) + EntryOf(message, now)
      ensures log == if isNew then old(log) + EntryOf(message, now) else old(log)
    {
      RecentIsSeenLately(log, accepted, message, now, ttl, limit);
      ghost var at := KeyIs(message);
      hide WindowOk, RingOk, AcceptedBy, Recent, LastN, ControlEventKey, WaitersValid, SeenLately, Keyed, KeysOf;
      var key := ControlEventKey(message);
      isNew := true;
      if key.Some? {
        isNew := AcceptKey(key.value, now, message);
      }
    }

    /** Publishes one logical control event at most once per window; unkeyed messages always pass. */
    method PublishOnce(message: Notification, now: real, publishedAt: real) returns (delivered: bool)
      requires Valid() && clock <= now <= publishedAt
      modifies this`clock, this`dedupeOrder, this`dedupeKeys, this`offered, this`log, this`accepted
      modifies this`replay, this`published, waiters
      ensures forall w :: w in waiters ==>
        w.outcome == if delivered && old(w.outcome).Pending? && w.wanted(message) then Got(message) else old(w.outcome)
      ensures Valid()
      ensures delivered <==> !closed && !SeenLately(old(accepted), message, now, ttl, limit)
      ensures accepted == if delivered && Keyed(message) then old(accepted) + [(now, message)] else old(accepted)
      ensures published == if delivered then old(published) + [(publishedAt, message)] else old(published)
      ensures delivered <==> !closed && !Repeats(old(log), message, now, ttl, limit)
      ensures offered == if closed then old(offered) else old(offered) + EntryOf(message, now)
      ensures log == if delivered then old(log) + EntryOf(message, now) else old(log)
    {
      hide WindowOk, RingOk, AcceptedBy, Recent, LastN, ControlEventKey, WaitersValid, SeenLately, Keyed, KeysOf, EntryOf, Repeats;
      if closed {
        return false;
      }
      delivered := Admit(message, now);
      if delivered {
        Publish(message, publishedAt);
      }
    }

    /** The newest wanted message in the ring that is young enough. */
    method PeekReplay(wanted: Matcher, window: Option<real>, now: real) returns (found: Option<Notification>)
      requires Valid() && clock <= now
      ensures window.None? || closed ==> found == None
      ensures window.Some? && !closed ==>
        IsLatest(published, |published| - |LastN(published, replaySize)|, now - AtLeastZero(window.value), wanted, found)
    {
      if window.None? || replay == [] {
        return None;
      }
      var cutoff := now - AtLeastZero(window.value);
      ghost var lo := |published| - |replay|;
      var i := |replay|;
      while i > 0
        invariant 0 <= i <= |replay|
        invariant forall j :: lo + i <= j < |published| ==> !Hit(published, j, cutoff, wanted)
      {
        i := i - 1;
        assert replay[i] == published[lo + i];
        if replay[i].0 < cutoff {
          break;
        }
        if wanted(replay[i].1) {
          assert Hit(published, lo + i, cutoff, wanted);
          return Some(replay[i].1);
        }
      }
      return None;
    }

    /** Where the window that a wait looks back over starts in the history: the oldest young message of the ring. */
    ghost function WindowStart(window: Option<real>, now: real): nat
      reads this`published
    {
      if window.None? then |published|
      else FirstYoung(published, |published| - |LastN(published, replaySize)|, now - AtLeastZero(window.value))
    }

    /** Looks back, then registers, with nothing able to slip in between. */
    method BeginWait(wanted: Matcher, window: Option<real>, replayWanted: Option<Matcher>, now: real) returns (start: WaitStart)
      requires Valid() && clock <= now
      modifies this`waiters
      ensures Valid()
      ensures start.Replayed? || start.HubClosed? ==> waiters == old(waiters)
      ensures start.Registered? ==>
        && fresh(start.waiter) && waiters == old(waiters) + [start.waiter]
        && start.waiter.wanted == wanted && start.waiter.start == |published| && start.waiter.outcome.Pending?
        && start.waiter.scanned == (if replayWanted.Some? then replayWanted.value else wanted)
        && start.waiter.from == WindowStart(window, now)
      ensures var scan := if replayWanted.Some? then replayWanted.value else wanted;
        window.Some? && !closed ==>
          IsLatest(published, |published| - |LastN(published, replaySize)|, now - AtLeastZero(window.value), scan,
                   if start.Replayed? then Some(start.message) else None)
    {
      hide WindowOk, AcceptedBy, KeysOf, IsLatest, FirstYoung;
      var scan := if replayWanted.Some? then replayWanted.value else wanted;
      var found := PeekReplay(scan, window, now);
      if found.Some? {
        return Replayed(found.value);
      }
      if closed {
        return HubClosed;
      }
      if window.Some? {
        NothingFound(published, |published| - |LastN(published, replaySize)|, now - AtLeastZero(window.value), scan);
      }
      var w := Register(wanted, scan, WindowStart(window, now));
      return Registered(w);
    }

    method Register(wanted: Matcher, ghost scanned: Matcher, ghost from: nat) returns (w: Waiter)
      requires Valid() && !closed && NoneWanted(published, from, |published|, scanned)
      modifies this`waiters
      ensures Valid() && fresh(w) && waiters == old(waiters) + [w]
      ensures w.wanted == wanted && w.scanned == scanned && w.outcome.Pending?
      ensures w.from == from && w.start == |published|
    {
      hide WindowOk, RingOk, AcceptedBy, LastN;
      w := new Waiter(wanted, scanned, from, |published|);
      waiters := waiters + [w];
    }

    /** The timer fires: a waiter that is still pending gives up, and had missed nothing since its window started. */
    method Timeout(w: Waiter)
      requires Valid() && w in waiters
      modifies w
      ensures Valid()
      ensures w.outcome == if old(w.outcome).Pending? then TimedOut else old(w.outcome)
      ensures old(w.outcome).Pending? ==>
        && NoneWanted(published, w.from, w.start, w.scanned) && NoneWanted(published, w.start, |published|, w.wanted)
        && (w.scanned == w.wanted ==> NoneWanted(published, w.from, |published|, w.wanted))
    {
      if w.outcome.Pending? {
        w.outcome := TimedOut;
        w.until := |published|;
      }
    }

    /** The waiting side resumes and leaves the list; a result is the first wanted message since registration. */
    method EndWait(w: Waiter) returns (result: Option<Notification>)
      requires Valid() && w in waiters && !w.outcome.Pending?
      modifies this`waiters
      ensures Valid() && waiters == Without(old(waiters), w) && w !in waiters
      ensures result.Some? ==>
        && w.start <= w.until < |published| && published[w.until].1 == result.value && w.wanted(result.value)
        && NoneWanted(published, w.start, w.until, w.wanted)
      ensures result.None? ==> NoneWanted(published, w.start, w.until, w.wanted)
      ensures NoneWanted(published, w.from, w.start, w.scanned)
      ensures w.scanned == w.wanted ==> NoneWanted(published, w.from, w.until, w.wanted)
    {
      WithoutRemoves(waiters, w);
      waiters := Without(waiters, w);
      return if w.outcome.Got? then Some(w.outcome.message) else None;
    }

    /** Pending waiters are cancelled and nothing is remembered or published any more. */
    method Close()
      requires Valid()
      modifies this`closed, this`waiters, this`replay, this`dedupeOrder, this`dedupeKeys, waiters
      ensures Valid() && closed && waiters == []
      ensures forall w :: w in old(waiters) ==> !w.outcome.Pending?
      ensures forall w :: w in old(waiters) ==> w.outcome == old(w.outcome) || (old(w.outcome).Pending? && w.outcome.Cancelled?)
    {
      hide WindowOk, RingOk, AcceptedBy, KeysOf, LastN;
      if closed {
        return;
      }
      var pending := waiters;
      CancelAll(pending);
      closed := true;
      waiters, replay, dedupeOrder, dedupeKeys := [], [], [], {};
    }

    static method CancelAll(waiters: seq<Waiter>)
      modifies waiters
      ensures forall w :: w in waiters ==> w.outcome == if old(w.outcome).Pending? then Cancelled else old(w.outcome)
    {
      for i := 0 to |waiters|
        invariant forall w :: w in waiters[..i] ==>
          w.outcome == if old(w.outcome).Pending? then Cancelled else old(w.outcome)
        invariant forall w :: w in waiters ==>
          w.outcome == old(w.outcome) || (old(w.outcome).Pending? && w.outcome == Cancelled)
      {
        if waiters[i].outcome.Pending? {
          waiters[i].outcome := Cancelled;
        }
      }
    }
  }
}
