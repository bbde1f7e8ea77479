/** How each call ends, read off the events of a run alone. */
module RpcOutcomes {
  import opened Wrappers
  import opened RpcClient

  // What a waiting call resumes on.
  datatype Cause = Answered(frame: Frame) | RanOut | ReaderLost | Closed

  /** Why a call would be refused at once, if it would. */
  predicate RefusedAfter(before: seq<Event>, reason: Failure) {
    match reason
    case NotConnected => EndClose in before
    case ClientClosed => BeginClose in before && EndClose !in before
    case ReaderFailed => ReceiveError in before && BeginClose !in before && EndClose !in before
    case _ => false
  }

  predicate AcceptedAfter(before: seq<Event>) {
    ReceiveError !in before && BeginClose !in before && EndClose !in before
  }

  predicate Removes(event: Event, id: string) {
    event == SendError(id) || event == Resume(id) || event == Cancel(id) || event == EndClose
  }

  ghost predicate ListedFrom(events: seq<Event>, id: string, j: nat)
    requires j < |events|
  {
    && events[j] == Start(id) && AcceptedAfter(events[..j])
    && forall k :: j < k < |events| ==> !Removes(events[k], id)
  }

  /** The call was accepted and has not left the table since. */
  ghost predicate Listed(events: seq<Event>, id: string) {
    exists j :: 0 <= j < |events| && ListedFrom(events, id, j)
  }

  ghost predicate NamesListed(events: seq<Event>, key: Option<string>) {
    key.Some? && Listed(events, key.value)
  }

  /** The frame answers this call: no notification, and the first of its three ids that names a listed call is this one. */
  ghost predicate Answers(events: seq<Event>, frame: Frame, id: string) {
    && !frame.isNotification && (frame.hasMethod ==> frame.hasId) && Listed(events, id)
    && (|| frame.id == Some(id)
        || (!NamesListed(events, frame.id) && frame.requestId == Some(id))
        || (!NamesListed(events, frame.id) && !NamesListed(events, frame.requestId) && frame.correlationId == Some(id)))
  }

  /** What one event, coming after some others, gives a call to resume on. */
  ghost function CauseOf(before: seq<Event>, event: Event, id: string): Option<Cause> {
    match event
    case Receive(frame) => if Answers(before, frame, id) then Some(Answered(frame)) else None
    case Timer(timed) => if timed == id then Some(RanOut) else None
    case ReceiveError | ReaderCrash | ReaderStop => if Listed(before, id) then Some(ReaderLost) else None
    case EndClose => if Listed(before, id) then Some(Closed) else None
    case _ => None
  }

  /** The first thing that happened to the call's wait. */
  ghost function FirstCause(events: seq<Event>, id: string): Option<Cause> {
    if events == [] then None
    else
      var before := events[..|events| - 1];
      if FirstCause(before, id).Some? then FirstCause(before, id) else CauseOf(before, events[|events| - 1], id)
  }

  ghost predicate ResumedOn(events: seq<Event>, id: string, cause: Cause) {
    Resume(id) in events && FirstCause(events, id) == Some(cause)
  }

  ghost predicate Refused(events: seq<Event>, id: string, reason: Failure) {
    exists j :: 0 <= j < |events| && events[j] == Start(id) && RefusedAfter(events[..j], reason)
  }

  /** The events that make a call end this way. */
  ghost predicate Ends(events: seq<Event>, id: string, outcome: Outcome) {
    match outcome
    case Response(frame) => ResumedOn(events, id, Answered(frame))
    case Raised(TimedOut) => ResumedOn(events, id, RanOut)
    case Raised(ReaderFailed) => ResumedOn(events, id, ReaderLost) || Refused(events, id, ReaderFailed)
    case Raised(ClientClosed) => ResumedOn(events, id, Closed) || Refused(events, id, ClientClosed)
    case Raised(NotConnected) => Refused(events, id, NotConnected)
    case Raised(SendFailed) => SendError(id) in events
    case Raised(Cancelled) => Cancel(id) in events
  }

  // ---- One event more ----

  lemma ListedByLast(before: seq<Event>, last: Event, id: string)
    ensures Listed(before + [last], id) <==>
      || (last == Start(id) && AcceptedAfter(before))
      || (Listed(before, id) && !Removes(last, id))
  {
    var all, n := before + [last], |before|;
    assert all[..n] == before && all[n] == last;
    forall j | 0 <= j < n ensures ListedFrom(all, id, j) <==> ListedFrom(before, id, j) && !Removes(last, id) {
      assert all[..j] == before[..j] && all[j] == before[j];
      if ListedFrom(all, id, j) {
        forall k | j < k < n ensures !Removes(before[k], id) {
          assert all[k] == before[k];
        }
        assert !Removes(all[n], id);
      }
    }
    if last == Start(id) && AcceptedAfter(before) {
      assert ListedFrom(all, id, n);
    }
  }

  lemma RefusedByLast(before: seq<Event>, last: Event, id: string, reason: Failure)
    ensures Refused(before + [last], id, reason) <==>
      Refused(before, id, reason) || (last == Start(id) && RefusedAfter(before, reason))
  {
    var all, n := before + [last], |before|;
    assert all[..n] == before && all[n] == last;
    forall j | 0 <= j < n ensures all[..j] == before[..j] && all[j] == before[j] {
    }
    if Refused(before, id, reason) {
      var j :| 0 <= j < n && before[j] == Start(id) && RefusedAfter(before[..j], reason);
      assert all[j] == Start(id) && RefusedAfter(all[..j], reason);
    }
    if last == Start(id) && RefusedAfter(before, reason) {
      assert all[n] == Start(id) && RefusedAfter(all[..n], reason);
    }
  }

  lemma FirstCauseByLast(before: seq<Event>, last: Event, id: string)
    ensures FirstCause(before + [last], id) ==
      if FirstCause(before, id).Some? then FirstCause(before, id) else CauseOf(before, last, id)
  {
    assert (before + [last])[..|before|] == before;
  }

  // ---- One step of the state ----

  lemma PendingStep(s: State, event: Event, id: string)
    requires Inv(s) && Enabled(s, event)
    ensures id in Next(s, event).pending <==>
      || (event == Start(id) && Accepting(s))
      || (id in s.pending && !Removes(event, id))
  {
  }

  function FutureAfter(s: State, event: Event, id: string): Future {
    match event
    case Receive(frame) => if Route(frame, s.pending) == Some(id) then Answer(frame) else Unset
    case Timer(timed) => if timed == id then Expired else Unset
    case ReceiveError | ReaderCrash | ReaderStop => if id in s.pending then Broken(ReaderFailed) else Unset
    case EndClose => if id in s.pending then Broken(ClientClosed) else Unset
    case _ => Unset
  }

  lemma FutureStep(s: State, event: Event, id: string)
    requires Inv(s) && Enabled(s, event)
    ensures FutureOf(Next(s, event), id) ==
      if FutureOf(s, id) != Unset then FutureOf(s, id) else FutureAfter(s, event, id)
  {
    if event.Receive? {
      RouteCarries(event.frame, s.pending);
    }
    assert id in s.pending ==> InFlight(s, id);
  }

  predicate EndedAs(s: State, id: string, outcome: Outcome) {
    id in s.phases && s.phases[id] == Finished(outcome)
  }

  lemma PhaseStep(s: State, event: Event, id: string, outcome: Outcome)
    requires Inv(s) && Enabled(s, event)
    ensures EndedAs(Next(s, event), id, outcome) <==>
      || EndedAs(s, id, outcome)
      || (event == Start(id) && !Accepting(s) && outcome == Raised(Refusal(s)))
      || (event == SendError(id) && outcome == Raised(SendFailed))
      || (event == Cancel(id) && outcome == Raised(Cancelled))
      || (event == Resume(id) && outcome == OutcomeOf(FutureOf(s, id)))
  {
  }

  /** Before these events a call has not ended; the last of them needs something to resume on. */
  lemma EndingNeedsOpenCall(s: State, event: Event, id: string)
    requires Inv(s) && Enabled(s, event)
    ensures event == Start(id) || event == SendError(id) || event == Cancel(id) || event == Resume(id) ==>
              forall outcome :: !EndedAs(s, id, outcome)
    ensures event == Resume(id) ==> FutureOf(s, id) != Unset
    ensures event == Start(id) ==> FutureOf(s, id) == Unset
  {
  }

  lemma ConnectionStep(s: State, event: Event)
    requires Enabled(s, event)
    ensures Next(s, event).connected <==> s.connected && event != EndClose
    ensures Next(s, event).closed <==> s.closed || event == BeginClose
  {
    hide Failed, Route;
  }

  lemma ReaderStep(s: State, event: Event)
    requires Enabled(s, event)
    ensures Next(s, event).readerFailed <==> s.readerFailed || (event == ReceiveError && !s.closed)
  {
    hide Failed, Route;
  }

  lemma {:induction false} FlagsFollow(events: seq<Event>)
    requires Legal(events)
    ensures After(events).connected <==> EndClose !in events
    ensures After(events).closed <==> BeginClose in events
    ensures BeginClose !in events ==> (After(events).readerFailed <==> ReceiveError in events)
  {
    if events != [] {
      var before, last := events[..|events| - 1], events[|events| - 1];
      assert events == before + [last];
      FlagsFollow(before);
      ConnectionStep(After(before), last);
      ReaderStep(After(before), last);
      hide Next, Enabled;
    }
  }

  lemma RefusalIs(events: seq<Event>)
    requires Legal(events)
    ensures Accepting(After(events)) <==> AcceptedAfter(events)
    ensures forall reason :: RefusedAfter(events, reason) <==> !Accepting(After(events)) && reason == Refusal(After(events))
  {
    FlagsFollow(events);
    RunKeepsInv(events);
  }

  // ---- Routing ----

  lemma RouteIs(frame: Frame, pending: set<string>, id: string)
    ensures Route(frame, pending) == Some(id) <==>
      && !frame.isNotification && (frame.hasMethod ==> frame.hasId) && id in pending
      && (|| frame.id == Some(id)
          || (!(frame.id.Some? && frame.id.value in pending) && frame.requestId == Some(id))
          || (!(frame.id.Some? && frame.id.value in pending) && !(frame.requestId.Some? && frame.requestId.value in pending)
              && frame.correlationId == Some(id)))
  {
    var last, rest := [frame.correlationId], [frame.requestId, frame.correlationId];
    assert last[1..] == [] && rest[1..] == last && Keys(frame)[1..] == rest;
    assert FirstPending(last, pending) ==
      if last[0].Some? && last[0].value in pending then last[0] else FirstPending([], pending);
    assert FirstPending(rest, pending) ==
      if rest[0].Some? && rest[0].value in pending then rest[0] else FirstPending(last, pending);
    assert FirstPending(Keys(frame), pending) ==
      if frame.id.Some? && frame.id.value in pending then frame.id else FirstPending(rest, pending);
  }

  function AsFuture(cause: Option<Cause>): Future {
    match cause
    case None => Unset
    case Some(Answered(frame)) => Answer(frame)
    case Some(RanOut) => Expired
    case Some(ReaderLost) => Broken(ReaderFailed)
    case Some(Closed) => Broken(ClientClosed)
  }

  ghost predicate SameTable(events: seq<Event>, s: State) {
    forall id :: id in s.pending <==> Listed(events, id)
  }

  lemma AnswersIsRoute(events: seq<Event>, s: State, frame: Frame, id: string)
    requires SameTable(events, s)
    ensures Answers(events, frame, id) <==> Route(frame, s.pending) == Some(id)
  {
    RouteIs(frame, s.pending, id);
    hide Listed, Route;
  }

  lemma CauseIsFuture(before: seq<Event>, s: State, event: Event, id: string)
    requires SameTable(before, s)
    ensures AsFuture(CauseOf(before, event, id)) == FutureAfter(s, event, id)
  {
    if event.Receive? {
      AnswersIsRoute(before, s, event.frame, id);
    }
    hide Listed, Answers, Route;
  }

  /** The table and the futures follow from the events. */
  lemma {:induction false} StateFollows(events: seq<Event>)
    requires Legal(events)
    ensures SameTable(events, After(events))
    ensures forall id :: FutureOf(After(events), id) == AsFuture(FirstCause(events, id))
  {
    if events != [] {
      var before, last := events[..|events| - 1], events[|events| - 1];
      assert events == before + [last];
      StateFollows(before);
      RunKeepsInv(before);
      RefusalIs(before);
      var s, s' := After(before), After(events);
      hide Next, Enabled, Inv, Listed, Removes, CauseOf, FutureAfter, AcceptedAfter, FutureOf;
      forall id ensures id in s'.pending <==> Listed(events, id) {
        PendingStep(s, last, id);
        ListedByLast(before, last, id);
      }
      forall id ensures FutureOf(s', id) == AsFuture(FirstCause(events, id)) {
        FutureStep(s, last, id);
        CauseIsFuture(before, s, last, id);
        FirstCauseByLast(before, last, id);
      }
    }
  }

  // ---- The outcome ----

  lemma ResumedByLast(before: seq<Event>, last: Event, id: string, cause: Cause)
    requires Resume(id) in before ==> FirstCause(before, id).Some?
    ensures ResumedOn(before + [last], id, cause) <==>
      || ResumedOn(before, id, cause)
      || (last == Resume(id) && Resume(id) !in before && FirstCause(before, id) == Some(cause))
  {
    FirstCauseByLast(before, last, id);
    hide FirstCause;
  }

  lemma EndsByLast(before: seq<Event>, last: Event, id: string, outcome: Outcome)
    requires Resume(id) in before ==> FirstCause(before, id).Some?
    requires last == Resume(id) ==> Resume(id) !in before && FirstCause(before, id).Some?
    ensures Ends(before + [last], id, outcome) <==>
      || Ends(before, id, outcome)
      || (last == Start(id) && outcome.Raised? && RefusedAfter(before, outcome.reason))
      || (last == SendError(id) && outcome == Raised(SendFailed))
      || (last == Cancel(id) && outcome == Raised(Cancelled))
      || (last == Resume(id) && outcome == OutcomeOf(AsFuture(FirstCause(before, id))))
  {
    match outcome
    case Response(frame) => ResumedByLast(before, last, id, Answered(frame));
    case Raised(TimedOut) => ResumedByLast(before, last, id, RanOut);
    case Raised(ReaderFailed) =>
      ResumedByLast(before, last, id, ReaderLost);
      RefusedByLast(before, last, id, ReaderFailed);
    case Raised(ClientClosed) =>
      ResumedByLast(before, last, id, Closed);
      RefusedByLast(before, last, id, ClientClosed);
    case Raised(NotConnected) => RefusedByLast(before, last, id, NotConnected);
    case _ =>
  }

  /** In every run a call ends in an outcome exactly when the events say so: answered, timed out, failed or refused. */
  lemma {:induction false} OutcomeIff(events: seq<Event>, id: string, outcome: Outcome)
    requires Legal(events)
    ensures EndedAs(After(events), id, outcome) <==> Ends(events, id, outcome)
    ensures Resume(id) in events ==> FirstCause(events, id).Some? && exists o :: EndedAs(After(events), id, o)
    decreases |events|
  {
    if events != [] {
      var before, last := events[..|events| - 1], events[|events| - 1];
      assert events == before + [last];
      OutcomeIff(before, id, outcome);
      RunKeepsInv(before);
      RefusalIs(before);
      StateFollows(before);
      var s := After(before);
      EndingNeedsOpenCall(s, last, id);
      PhaseStep(s, last, id, outcome);
      ResumeEnds(s, last, id);
      FirstCauseByLast(before, last, id);
      assert AsFuture(FirstCause(before, id)) == FutureOf(s, id);
      EndsByLast(before, last, id, outcome);
      hide Next, Enabled, Inv, EndedAs, Ends, FirstCause, FutureOf, OutcomeOf, RefusedAfter, Refusal, CauseOf;
    }
  }

  lemma ResumeEnds(s: State, event: Event, id: string)
    requires Inv(s) && Enabled(s, event)
    ensures event == Resume(id) ==> exists o :: EndedAs(Next(s, event), id, o)
    ensures (exists o :: EndedAs(s, id, o)) ==> exists o :: EndedAs(Next(s, event), id, o)
  {
    if event == Resume(id) {
      PhaseStep(s, event, id, OutcomeOf(FutureOf(s, id)));
    }
    if o :| EndedAs(s, id, o) {
      PhaseStep(s, event, id, o);
    }
  }
}
