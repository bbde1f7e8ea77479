/** Correlating responses with calls by id alone, one stretch of code without an await per step. */
module RpcClient {
  import opened Wrappers

  // The parts of a decoded frame that routing looks at. An id may be present without being text.
  datatype Frame = Frame(
    id: Option<string>,
    requestId: Option<string>,
    correlationId: Option<string>,
    hasId: bool,
    hasMethod: bool,
    isNotification: bool,
    looksAnswered: bool,
    body: string)

  datatype Failure = NotConnected | ClientClosed | ReaderFailed | SendFailed | TimedOut | Cancelled

  datatype Future = Unset | Answer(frame: Frame) | Broken(reason: Failure) | Expired

  datatype Outcome = Response(frame: Frame) | Raised(reason: Failure)

  datatype Phase = Sending | Waiting | Finished(outcome: Outcome)

  datatype State = State(
    pending: set<string>,
    futures: map<string, Future>,
    phases: map<string, Phase>,
    connected: bool,
    closed: bool,
    readerFailed: bool,
    readerAlive: bool,
    readerCrashed: bool)

  const CONNECTED: State := State({}, map[], map[], true, false, false, true, false)

  datatype Event =
    | Start(id: string)
    | SendError(id: string)
    | SendDone(id: string)
    | Timer(id: string)
    | Resume(id: string)
    | Cancel(id: string)
    | Receive(frame: Frame)
    | ReceiveError
    | ReaderCrash
    | BeginClose
    | ReaderStop
    | EndClose

  // ---- Routing ----

  predicate Carries(frame: Frame, id: string) {
    frame.id == Some(id) || frame.requestId == Some(id) || frame.correlationId == Some(id)
  }

  function Keys(frame: Frame): seq<Option<string>> {
    [frame.id, frame.requestId, frame.correlationId]
  }

  function FirstPending(keys: seq<Option<string>>, pending: set<string>): Option<string> {
    if keys == [] then None
    else if keys[0].Some? && keys[0].value in pending then keys[0]
    else FirstPending(keys[1..], pending)
  }

  /** The call a frame answers, if any. */
  function Route(frame: Frame, pending: set<string>): Option<string> {
    if pending == {} || (frame.hasMethod && !frame.hasId) || frame.isNotification then None
    else FirstPending(Keys(frame), pending)
  }

  lemma {:induction false} FirstPendingIsKey(keys: seq<Option<string>>, pending: set<string>)
    ensures var r := FirstPending(keys, pending); r.Some? ==> r.value in pending && r in keys
  {
    if keys != [] {
      FirstPendingIsKey(keys[1..], pending);
    }
  }

  lemma RouteCarries(frame: Frame, pending: set<string>)
    ensures Route(frame, pending).Some? ==>
      Route(frame, pending).value in pending && Carries(frame, Route(frame, pending).value)
  {
    FirstPendingIsKey(Keys(frame), pending);
  }

  // ---- Steps ----

  predicate InFlight(s: State, id: string) {
    id in s.phases && !s.phases[id].Finished?
  }

  predicate Accepting(s: State) {
    s.connected && !s.closed && !s.readerFailed
  }

  function Failed(futures: map<string, Future>, ids: set<string>, reason: Failure): map<string, Future> {
    map id | id in futures :: if id in ids && futures[id] == Unset then Broken(reason) else futures[id]
  }

  predicate Enabled(s: State, event: Event) {
    match event
    case Start(id) => id !in s.phases
    case SendError(id) => id in s.phases && s.phases[id] == Sending
    case SendDone(id) => id in s.phases && s.phases[id] == Sending
    case Timer(id) => id in s.phases && s.phases[id] == Waiting && id in s.futures && s.futures[id] == Unset
    case Resume(id) => id in s.phases && s.phases[id] == Waiting && id in s.futures && s.futures[id] != Unset
    case Cancel(id) => InFlight(s, id)
    case Receive(_) => s.readerAlive
    case ReceiveError => s.readerAlive
    case ReaderCrash => s.readerAlive && !s.closed
    case BeginClose => true
    case ReaderStop => s.readerAlive && s.closed
    case EndClose => s.closed && !s.readerAlive
  }

  function Refusal(s: State): Failure {
    if !s.connected then NotConnected else if s.closed then ClientClosed else ReaderFailed
  }

  function OutcomeOf(future: Future): Outcome {
    match future
    case Answer(frame) => Response(frame)
    case Broken(reason) => Raised(reason)
    case _ => Raised(TimedOut)
  }

  function Finish(s: State, id: string, outcome: Outcome): State {
    s.(phases := s.phases[id := Finished(outcome)], pending := s.pending - {id})
  }

  function Next(s: State, event: Event): State
    requires Enabled(s, event)
  {
    match event
    case Start(id) =>
      if !Accepting(s) then s.(phases := s.phases[id := Finished(Raised(Refusal(s)))])
      else s.(pending := s.pending + {id}, futures := s.futures[id := Unset], phases := s.phases[id := Sending])
    case SendError(id) => Finish(s, id, Raised(SendFailed))
    case SendDone(id) => s.(phases := s.phases[id := Waiting])
    case Timer(id) => s.(futures := s.futures[id := Expired])
    case Resume(id) => Finish(s, id, OutcomeOf(s.futures[id]))
    case Cancel(id) => Finish(s, id, Raised(Cancelled))
    case Receive(frame) =>
      var owner := Route(frame, s.pending);
      if owner.Some? && owner.value in s.futures && s.futures[owner.value] == Unset
      then s.(futures := s.futures[owner.value := Answer(frame)])
      else s
    case ReceiveError =>
      s.(readerFailed := s.readerFailed || !s.closed, readerAlive := false,
         futures := Failed(s.futures, s.pending, ReaderFailed))
    case ReaderCrash =>
      s.(readerAlive := false, readerCrashed := true, futures := Failed(s.futures, s.pending, ReaderFailed))
    case BeginClose => s.(closed := true)
    case ReaderStop => s.(readerAlive := false, futures := Failed(s.futures, s.pending, ReaderFailed))
    case EndClose =>
      s.(futures := Failed(s.futures, s.pending, ClientClosed), pending := {}, connected := false)
  }

  // ---- Invariants of every run ----

  function FutureOf(s: State, id: string): Future {
    if id in s.futures then s.futures[id] else Unset
  }

  ghost predicate Known(s: State) {
    && (forall id :: id in s.pending ==> InFlight(s, id))
    && (forall id :: InFlight(s, id) ==> id in s.futures)
    && (forall id :: id in s.futures ==> id in s.phases)
  }

  /** A call off the books but unfinished already has its answer or failure waiting. */
  ghost predicate OffBooksSettled(s: State) {
    forall id :: InFlight(s, id) && id !in s.pending ==> FutureOf(s, id) != Unset
  }

  ghost predicate OwnAnswers(s: State) {
    && (forall id :: FutureOf(s, id).Answer? ==> Carries(FutureOf(s, id).frame, id))
    && (forall id :: id in s.phases && s.phases[id].Finished? && s.phases[id].outcome.Response? ==>
          Carries(s.phases[id].outcome.frame, id))
  }

  predicate TransportGone(s: State) {
    (s.readerFailed && !s.readerAlive) || (s.closed && !s.connected)
  }

  /** Once the transport is gone nobody is left waiting for something that cannot come. */
  ghost predicate NobodyStranded(s: State) {
    TransportGone(s) ==> forall id :: InFlight(s, id) ==> FutureOf(s, id) != Unset
  }

  ghost predicate ReaderAccounted(s: State) {
    && (!s.readerAlive ==> s.readerFailed || s.readerCrashed || s.closed)
    && (s.readerFailed ==> !s.readerAlive)
    && (s.readerCrashed ==> !s.readerAlive && !s.readerFailed)
    && (!s.connected ==> s.closed)
  }

  ghost predicate Inv(s: State) {
    Known(s) && OffBooksSettled(s) && OwnAnswers(s) && NobodyStranded(s) && ReaderAccounted(s)
  }

  lemma FailureSettles(s: State, s': State, reason: Failure)
    requires Known(s) && OffBooksSettled(s) && OwnAnswers(s)
    requires s'.futures == Failed(s.futures, s.pending, reason) && s'.phases == s.phases && s'.pending <= s.pending
    ensures Known(s') && OffBooksSettled(s') && OwnAnswers(s')
    ensures forall id :: InFlight(s', id) ==> FutureOf(s', id) != Unset
  {
    forall id | InFlight(s', id) ensures FutureOf(s', id) != Unset {
      assert InFlight(s, id);
    }
    forall id | FutureOf(s', id).Answer? ensures Carries(FutureOf(s', id).frame, id) {
      assert FutureOf(s', id) == FutureOf(s, id);
    }
    forall id | id in s'.pending ensures InFlight(s', id) {
      assert InFlight(s, id);
    }
  }

  lemma FinishKeepsInv(s: State, id: string, outcome: Outcome)
    requires Inv(s) && InFlight(s, id) && (outcome.Response? ==> Carries(outcome.frame, id))
    ensures Inv(Finish(s, id, outcome))
  {
    var s' := Finish(s, id, outcome);
    forall other ensures FutureOf(s', other) == FutureOf(s, other) {
    }
    forall other ensures InFlight(s', other) <==> InFlight(s, other) && other != id {
    }
    forall other | other in s'.pending ensures InFlight(s', other) {
      assert InFlight(s, other);
    }
  }

  lemma FutureKeepsInv(s: State, id: string, future: Future)
    requires Inv(s) && InFlight(s, id) && future != Unset && (future.Answer? ==> Carries(future.frame, id))
    ensures Inv(s.(futures := s.futures[id := future]))
  {
    var s' := s.(futures := s.futures[id := future]);
    forall other ensures InFlight(s', other) == InFlight(s, other) {
    }
    forall other ensures FutureOf(s', other) == if other == id then future else FutureOf(s, other) {
    }
    forall other | other in s'.pending ensures InFlight(s', other) {
      assert InFlight(s, other);
    }
  }

  lemma StartKeepsInv(s: State, id: string)
    requires Inv(s) && id !in s.phases
    ensures Inv(Next(s, Start(id)))
  {
    var s' := Next(s, Start(id));
    forall other | other != id ensures InFlight(s', other) == InFlight(s, other) && FutureOf(s', other) == FutureOf(s, other) {
    }
    forall other | other in s'.pending ensures InFlight(s', other) {
      assert other != id ==> InFlight(s, other);
    }
  }

  lemma SendDoneKeepsInv(s: State, id: string)
    requires Inv(s) && id in s.phases && s.phases[id] == Sending
    ensures Inv(Next(s, SendDone(id)))
  {
    var s' := Next(s, SendDone(id));
    assert InFlight(s, id);
    forall other ensures InFlight(s', other) == InFlight(s, other) && FutureOf(s', other) == FutureOf(s, other) {
    }
    forall other | other in s'.pending ensures InFlight(s', other) {
      assert InFlight(s, other);
    }
  }

  lemma StepKeepsInv(s: State, event: Event)
    requires Inv(s) && Enabled(s, event)
    ensures Inv(Next(s, event))
  {
    match event
    case Start(id) => StartKeepsInv(s, id);
    case SendError(id) =>
      assert InFlight(s, id);
      FinishKeepsInv(s, id, Raised(SendFailed));
    case SendDone(id) => SendDoneKeepsInv(s, id);
    case Timer(id) =>
      assert InFlight(s, id);
      FutureKeepsInv(s, id, Expired);
    case Resume(id) =>
      assert InFlight(s, id) && FutureOf(s, id) == s.futures[id];
      FinishKeepsInv(s, id, OutcomeOf(s.futures[id]));
    case Cancel(id) => FinishKeepsInv(s, id, Raised(Cancelled));
    case Receive(frame) =>
      RouteCarries(frame, s.pending);
      var owner := Route(frame, s.pending);
      if owner.Some? && owner.value in s.futures && s.futures[owner.value] == Unset {
        assert InFlight(s, owner.value);
        FutureKeepsInv(s, owner.value, Answer(frame));
      }
    case ReceiveError => FailureSettles(s, Next(s, event), ReaderFailed);
    case ReaderCrash => FailureSettles(s, Next(s, event), ReaderFailed);
    case BeginClose =>
      var s' := Next(s, event);
      forall id ensures InFlight(s', id) == InFlight(s, id) && FutureOf(s', id) == FutureOf(s, id) {
      }
      forall id | id in s'.pending ensures InFlight(s', id) {
        assert InFlight(s, id);
      }
    case ReaderStop => FailureSettles(s, Next(s, event), ReaderFailed);
    case EndClose => FailureSettles(s, Next(s, event), ClientClosed);
  }

  /** What happened to a call never un-happens: its outcome and its answer are written once. */
  ghost predicate Extends(s: State, s': State) {
    && (forall id :: id in s.phases && s.phases[id].Finished? ==> id in s'.phases && s'.phases[id] == s.phases[id])
    && (forall id :: id in s.futures && s.futures[id] != Unset ==> id in s'.futures && s'.futures[id] == s.futures[id])
  }

  lemma StepExtends(s: State, event: Event)
    requires Inv(s) && Enabled(s, event)
    ensures Extends(s, Next(s, event))
  {
  }

  ghost predicate Legal(events: seq<Event>)
    decreases |events|, 0
  {
    events != [] ==>
      && Legal(events[..|events| - 1])
      && Enabled(After(events[..|events| - 1]), events[|events| - 1])
  }

  ghost function After(events: seq<Event>): State
    requires Legal(events)
    decreases |events|, 1
  {
    if events == [] then CONNECTED
    else Next(After(events[..|events| - 1]), events[|events| - 1])
  }

  lemma {:induction false} RunKeepsInv(events: seq<Event>)
    requires Legal(events)
    ensures Inv(After(events))
  {
    if events != [] {
      RunKeepsInv(events[..|events| - 1]);
      StepKeepsInv(After(events[..|events| - 1]), events[|events| - 1]);
    }
  }

  /** At most one outcome per call over a whole run, and a response always carries the call's own id. */
  lemma {:induction false} OutcomeIsFinal(events: seq<Event>, n: nat, id: string)
    requires Legal(events) && n <= |events|
    ensures Legal(events[..n])
    ensures Extends(After(events[..n]), After(events))
    ensures var s := After(events[..n]);
            id in s.phases && s.phases[id].Finished? ==>
              && id in After(events).phases && After(events).phases[id] == s.phases[id]
              && (s.phases[id].outcome.Response? ==> Carries(s.phases[id].outcome.frame, id))
    decreases |events|
  {
    if n == |events| {
      assert events[..n] == events;
      RunKeepsInv(events);
    } else {
      var before := events[..|events| - 1];
      OutcomeIsFinal(before, n, id);
      assert before[..n] == events[..n];
      RunKeepsInv(before);
      StepExtends(After(before), events[|events| - 1]);
    }
  }

  /** A frame touches at most one call, an unanswered one whose id it carries. */
  lemma FrameCompletesOnlyItsOwner(s: State, frame: Frame, id: string)
    requires Inv(s) && s.readerAlive
    ensures var s' := Next(s, Receive(frame));
            && s'.phases == s.phases && s'.pending == s.pending && s'.futures.Keys == s.futures.Keys
            && (id in s.futures && s'.futures[id] != s.futures[id] ==>
                  id in s.pending && Carries(frame, id) && s.futures[id] == Unset && s'.futures[id] == Answer(frame))
  {
    RouteCarries(frame, s.pending);
  }

  /** Late, foreign and unidentified answers complete nobody. */
  lemma OrphanCompletesNobody(s: State, frame: Frame)
    requires Inv(s) && s.readerAlive
    requires forall id :: Carries(frame, id) ==> !InFlight(s, id) || s.futures[id] != Unset
    ensures Next(s, Receive(frame)) == s
  {
    RouteCarries(frame, s.pending);
  }

  /** The call's coroutine runs on: it leaves the send, then resumes on whatever its future holds. */
  function Drain(s: State, id: string): State
    requires InFlight(s, id) && id in s.futures && s.futures[id] != Unset
  {
    var waiting := if s.phases[id] == Sending then Next(s, SendDone(id)) else s;
    Next(waiting, Resume(id))
  }

  /** After a receive failure or a close, every registered call can finish without any further frame or timer. */
  lemma GoneTransportFinishesEveryCall(events: seq<Event>, id: string)
    requires Legal(events) && TransportGone(After(events)) && InFlight(After(events), id)
    ensures var s := After(events);
            && id in s.futures && s.futures[id] != Unset
            && Drain(s, id).phases[id] == Finished(OutcomeOf(s.futures[id]))
            && id !in Drain(s, id).pending
  {
    RunKeepsInv(events);
  }

  lemma FlagStep(s: State, event: Event)
    requires Enabled(s, event)
    ensures Next(s, event).readerCrashed <==> s.readerCrashed || event == ReaderCrash
    ensures Next(s, event).closed <==> s.closed || event == BeginClose
  {
  }

  lemma {:induction false} FlagsRecordEvents(events: seq<Event>)
    requires Legal(events)
    ensures After(events).readerCrashed <==> ReaderCrash in events
    ensures After(events).closed <==> BeginClose in events
  {
    if events != [] {
      var before, last := events[..|events| - 1], events[|events| - 1];
      FlagsRecordEvents(before);
      assert events == before + [last];
      FlagStep(After(before), last);
      hide Next, Enabled;
    }
  }

  /** Calls are accepted with no reader behind them exactly when the reader crashed and nobody has begun to close. */
  lemma AcceptingWithoutReaderIff(events: seq<Event>)
    requires Legal(events)
    ensures Accepting(After(events)) && !After(events).readerAlive <==> ReaderCrash in events && BeginClose !in events
  {
    RunKeepsInv(events);
    FlagsRecordEvents(events);
  }

  /** A call in flight with nothing to resume on and nobody reading. */
  predicate Stranded(s: State, id: string) {
    !s.readerAlive && InFlight(s, id) && FutureOf(s, id) == Unset
  }

  predicate Releases(event: Event, id: string) {
    event == SendError(id) || event == Timer(id) || event == Cancel(id) || event == EndClose
  }

  /** The call was started at j, after a crash of the reader and before any close, and nothing has released it since. */
  ghost predicate StrandedFrom(events: seq<Event>, id: string, j: nat)
    requires j < |events|
  {
    && events[j] == Start(id) && ReaderCrash in events[..j] && BeginClose !in events[..j]
    && forall k :: j < k < |events| ==> !Releases(events[k], id)
  }

  ghost predicate StrandedBy(events: seq<Event>, id: string) {
    exists j :: 0 <= j < |events| && StrandedFrom(events, id, j)
  }

  lemma StrandedByLast(before: seq<Event>, last: Event, id: string)
    ensures StrandedBy(before + [last], id) <==>
      || (last == Start(id) && ReaderCrash in before && BeginClose !in before)
      || (StrandedBy(before, id) && !Releases(last, id))
  {
    var all, n := before + [last], |before|;
    assert all[..n] == before;
    forall j | 0 <= j < n ensures StrandedFrom(all, id, j) <==> StrandedFrom(before, id, j) && !Releases(last, id) {
      assert all[..j] == before[..j] && all[j] == before[j] && all[n] == last;
      if StrandedFrom(all, id, j) {
        forall k | j < k < n ensures !Releases(before[k], id) {
          assert all[k] == before[k];
        }
      }
    }
    if last == Start(id) && ReaderCrash in before && BeginClose !in before {
      assert StrandedFrom(all, id, n);
    }
  }

  lemma StrandedStep(s: State, event: Event, id: string)
    requires Inv(s) && Enabled(s, event)
    ensures Stranded(Next(s, event), id) <==>
      || (event == Start(id) && s.readerCrashed && !s.closed)
      || (Stranded(s, id) && !Releases(event, id))
  {
    var s' := Next(s, event);
    if event == ReceiveError || event == ReaderCrash || event == ReaderStop {
      assert InFlight(s', id) ==> InFlight(s, id);
    }
    if event == EndClose {
      assert InFlight(s', id) ==> InFlight(s, id);
    }
  }

  /** In every run: a call is stranded exactly when it was started between a reader crash and a close and not released. */
  lemma {:induction false} StrandedIff(events: seq<Event>, id: string)
    requires Legal(events)
    ensures Stranded(After(events), id) <==> StrandedBy(events, id)
  {
    if events != [] {
      var before, last := events[..|events| - 1], events[|events| - 1];
      assert events == before + [last];
      StrandedIff(before, id);
      RunKeepsInv(before);
      FlagsRecordEvents(before);
      StrandedByLast(before, last, id);
      StrandedStep(After(before), last, id);
      hide Next, Enabled, StrandedBy, Stranded, Releases, Inv;
    }
  }

  /** Such a run: an event hook raises in the reader, and the next call is registered for nothing but its timer. */
  lemma CrashStrandsLaterCall()
    ensures var events := [ReaderCrash, Start("c"), SendDone("c")];
            && Legal(events) && Accepting(After(events)) && "c" in After(events).pending
            && After(events).futures["c"] == Unset && !After(events).readerAlive
  {
    var e1, e2, e3 := [ReaderCrash], [ReaderCrash, Start("c")], [ReaderCrash, Start("c"), SendDone("c")];
    assert e1[..0] == [] && e2[..1] == e1 && e3[..2] == e2;
    assert Legal([]) && Legal(e1) && Legal(e2) && Legal(e3);
  }

  // ---- The client object ----

  class Client {
    var pending: set<string>
    var futures: map<string, Future>
    var phases: map<string, Phase>
    var connected: bool
    var closed: bool
    var readerFailed: bool
    var readerAlive: bool
    var readerCrashed: bool
    var orphans: seq<Frame>
    var notified: seq<Frame>

    function Abstract(): State
      reads this
    {
      State(pending, futures, phases, connected, closed, readerFailed, readerAlive, readerCrashed)
    }

    constructor ()
      ensures Abstract() == CONNECTED && orphans == [] && notified == []
    {
      pending, futures, phases := {}, map[], map[];
      connected, closed, readerFailed, readerAlive, readerCrashed := true, false, false, true, false;
      orphans, notified := [], [];
    }

    /** Up to the first await: refused at once, or registered under a fresh id. */
    method BeginCall(id: string)
      requires Enabled(Abstract(), Start(id))
      modifies this
      ensures Abstract() == Next(old(Abstract()), Start(id))
      ensures orphans == old(orphans) && notified == old(notified)
    {
      if !connected {
        phases := phases[id := Finished(Raised(NotConnected))];
      } else if closed {
        phases := phases[id := Finished(Raised(ClientClosed))];
      } else if readerFailed {
        phases := phases[id := Finished(Raised(ReaderFailed))];
      } else {
        futures := futures[id := Unset];
        pending := pending + {id};
        phases := phases[id := Sending];
      }
    }

    /** The waiting caller is cancelled, in the send or after it: the call leaves the table all the same. */
    method CancelCall(id: string)
      requires Enabled(Abstract(), Cancel(id))
      modifies this
      ensures Abstract() == Next(old(Abstract()), Cancel(id))
      ensures orphans == old(orphans) && notified == old(notified)
    {
      phases := phases[id := Finished(Raised(Cancelled))];
      pending := pending - {id};
    }

    /** The wait is over: the future decides, and the call leaves the table in every case. */
    method ResumeCall(id: string)
      requires Enabled(Abstract(), Resume(id))
      modifies this
      ensures Abstract() == Next(old(Abstract()), Resume(id))
      ensures orphans == old(orphans) && notified == old(notified)
      ensures id !in pending && id in old(futures)
      ensures old(futures[id]).Answer? ==> phases == old(phases)[id := Finished(Response(old(futures[id]).frame))]
      ensures old(futures[id]).Broken? ==> phases == old(phases)[id := Finished(Raised(old(futures[id]).reason))]
      ensures old(futures[id]).Expired? ==> phases == old(phases)[id := Finished(Raised(TimedOut))]
    {
      phases := phases[id := Finished(OutcomeOf(futures[id]))];
      pending := pending - {id};
    }

    method PendingFor(frame: Frame) returns (owner: Option<string>)
      ensures owner == Route(frame, pending)
    {
      if pending == {} || (frame.hasMethod && !frame.hasId) || frame.isNotification {
        return None;
      }
      var keys := Keys(frame);
      assert keys[0..] == keys;
      for i := 0 to |keys|
        invariant FirstPending(keys[i..], pending) == FirstPending(keys, pending)
      {
        assert keys[i..][1..] == keys[i + 1..];
        if keys[i].Some? && keys[i].value in pending {
          return keys[i];
        }
      }
      return None;
    }

    /** Delivered to its owner, reported as an orphan, or passed on as a notification: exactly one of the three. */
    method Dispatch(frame: Frame)
      requires readerAlive && Inv(Abstract())
      modifies this
      ensures Abstract() == Next(old(Abstract()), Receive(frame))
      ensures var s := old(Abstract());
              var owner := Route(frame, s.pending);
              if owner.Some? && FutureOf(s, owner.value) == Unset then
                orphans == old(orphans) && notified == old(notified)
              else if owner.Some? || (!frame.hasMethod && frame.looksAnswered) then
                orphans == old(orphans) + [frame] && notified == old(notified)
              else orphans == old(orphans) && notified == old(notified) + [frame]
    {
      RouteCarries(frame, pending);
      var owner := PendingFor(frame);
      if owner.Some? {
        if futures[owner.value] == Unset {
          futures := futures[owner.value := Answer(frame)];
        } else {
          orphans := orphans + [frame];
        }
        return;
      }
      if !frame.hasMethod && frame.looksAnswered {
        orphans := orphans + [frame];
        return;
      }
      notified := notified + [frame];
    }

    /** Fails every call in the table that has no answer yet, each on its own. */
    method FailPending(reason: Failure)
      requires pending <= futures.Keys
      modifies this`futures
      ensures futures == Failed(old(futures), pending, reason)
    {
      ghost var before := futures;
      var todo := pending;
      while todo != {}
        invariant todo <= pending && futures.Keys == before.Keys
        invariant forall id :: id in futures ==>
          futures[id] == if id in pending && id !in todo && before[id] == Unset then Broken(reason) else before[id]
        decreases |todo|
      {
        var id :| id in todo;
        if futures[id] == Unset {
          futures := futures[id := Broken(reason)];
        }
        todo := todo - {id};
      }
    }

    method ReceiveFailed()
      requires readerAlive && Inv(Abstract())
      modifies this
      ensures Abstract() == Next(old(Abstract()), ReceiveError)
      ensures orphans == old(orphans) && notified == old(notified)
    {
      if !closed {
        readerFailed := true;
      }
      FailPending(ReaderFailed);
      readerAlive := false;
    }

    /** The tail of close, after the reader task has been awaited. */
    method FinishClose()
      requires closed && !readerAlive && Inv(Abstract())
      modifies this
      ensures Abstract() == Next(old(Abstract()), EndClose)
      ensures orphans == old(orphans) && notified == old(notified)
    {
      FailPending(ClientClosed);
      pending := {};
      connected := false;
    }
  }
}
