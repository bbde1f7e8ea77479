/** Per-worker diagnostics: pause generations, recent calls, and the status a worker may end with. */
module Diagnostics {
  import opened Wrappers

  const RECENT_CALLS_MAX: nat := 50
  const PAGE_CRASHED_LOOKBACK: nat := 5
  const PAGE_CRASHED_THRESHOLD: nat := 3
  const EXTRACTION_LOOKBACK: nat := 10
  const EXTRACTION_THRESHOLD: nat := 5
  const CONTRACT_ERROR_THRESHOLD: nat := 3

  datatype Routing = PageContinuationLost | SessionFleetLost | FleetAssignmentLost

  datatype Call = Call(isExtraction: bool, pageDead: bool, extractionFailure: bool)

  // A tool receipt as the observer reads it; page is "" when neither the parameters nor the response name one.
  datatype Receipt = Receipt(
    pausesPage: bool,
    waitResumed: bool,
    page: string,
    routing: Option<Routing>,
    contractError: bool,
    call: Call
  )

  datatype Event =
    | Observe(receipt: Receipt)
    | Exception(contextLimit: bool)
    | Begin(page: string)
    | WaitEntered(page: string)
    | WaitTimedOut
    | Resumed
    | PageSettled
    | StaleDeadlock

  // What is known about the latest pause.
  datatype Pause = Pause(
    page: Option<string>,
    generation: nat,
    resumedGeneration: nat,
    waitEntered: bool,
    waitTimedOut: bool,
    resumedObserved: bool,
    pageSettled: bool,
    staleDeadlock: bool
  )

  // All the fields of a WorkerDiagnostics object as one value.
  datatype View = View(
    authorizationPending: bool,
    contextLimit: bool,
    pause: Pause,
    contractErrors: nat,
    recentCalls: seq<Call>,
    routingFailure: Option<Routing>
  )

  const NO_PAUSE: Pause := Pause(None, 0, 0, false, false, false, false, false)
  const FRESH: View := View(false, false, NO_PAUSE, 0, [], None)

  /** A remembered page, and a generation that has not been resumed. */
  predicate Unresolved(pause: Pause) {
    && pause.page.Some?
    && if pause.generation == 0 && pause.resumedGeneration == 0 then !pause.resumedObserved
       else pause.generation > pause.resumedGeneration
  }

  function Opened(pause: Pause, page: string): Pause {
    Pause(if page == "" then None else Some(page), pause.generation + 1, pause.resumedGeneration,
          pause.waitEntered, false, pause.resumedObserved, false, false)
  }

  function Cleared(pause: Pause): Pause {
    pause.(resumedObserved := true, resumedGeneration := pause.generation, page := None)
  }

  function PauseAfter(pause: Pause, event: Event): Pause {
    match event
    case Observe(receipt) =>
      if !receipt.pausesPage then pause
      else if receipt.waitResumed then Cleared(pause)
      else if receipt.page != "" && !Unresolved(pause) then Opened(pause, receipt.page)
      else pause
    case Exception(_) => pause
    case Begin(page) => Opened(pause, page)
    case WaitEntered(page) =>
      var entered := pause.(waitEntered := true);
      if page == "" then entered else Opened(entered, page)
    case WaitTimedOut => pause.(waitTimedOut := true)
    case Resumed => Cleared(pause)
    case PageSettled => pause.(pageSettled := true)
    case StaleDeadlock => pause.(staleDeadlock := true)
  }

  function CallsAfter(calls: seq<Call>, event: Event): seq<Call> {
    if event.Observe? then LastN(calls + [event.receipt.call], RECENT_CALLS_MAX) else calls
  }

  function After(d: View, event: Event): View {
    View(d.authorizationPending,
         if event.Exception? then event.contextLimit else d.contextLimit,
         PauseAfter(d.pause, event),
         if event.Observe? && event.receipt.contractError then d.contractErrors + 1 else d.contractErrors,
         CallsAfter(d.recentCalls, event),
         if event.Observe? && event.receipt.routing.Some? then event.receipt.routing else d.routingFailure)
  }

  class WorkerDiagnostics {
    var authorizationPending: bool
    var contextLimit: bool
    var pausePage: Option<string>
    var pauseGeneration: nat
    var resumedGeneration: nat
    var waitEntered: bool
    var waitTimedOut: bool
    var resumedObserved: bool
    var pageSettled: bool
    var staleDeadlock: bool
    var contractErrors: nat
    var recentCalls: seq<Call>
    var routingFailure: Option<Routing>

    function Value(): View
      reads this
    {
      View(authorizationPending, contextLimit, PauseValue(), contractErrors, recentCalls, routingFailure)
    }

    function PauseValue(): Pause
      reads `pausePage, `pauseGeneration, `resumedGeneration, `waitEntered
      reads `waitTimedOut, `resumedObserved, `pageSettled, `staleDeadlock
    {
      Pause(pausePage, pauseGeneration, resumedGeneration, waitEntered, waitTimedOut, resumedObserved, pageSettled, staleDeadlock)
    }

    constructor ()
      ensures Value() == FRESH
    {
      authorizationPending, contextLimit, pausePage, pauseGeneration, resumedGeneration := false, false, None, 0, 0;
      waitEntered, waitTimedOut, resumedObserved, pageSettled, staleDeadlock := false, false, false, false, false;
      contractErrors, recentCalls, routingFailure := 0, [], None;
    }

    predicate HitlUnresolved()
      reads `pausePage, `pauseGeneration, `resumedGeneration, `waitEntered
      reads `waitTimedOut, `resumedObserved, `pageSettled, `staleDeadlock
      ensures HitlUnresolved() == Unresolved(PauseValue())
    {
      if pausePage.None? then false
      else if pauseGeneration == 0 && resumedGeneration == 0 then !resumedObserved
      else pauseGeneration > resumedGeneration
    }

    method BeginHitlPause(page: string) returns (generation: nat)
      modifies `pausePage, `pauseGeneration, `waitTimedOut, `pageSettled, `staleDeadlock
      ensures PauseValue() == PauseAfter(old(PauseValue()), Begin(page)) && generation == pauseGeneration
    {
      pauseGeneration := pauseGeneration + 1;
      pausePage := if page == "" then None else Some(page);
      waitTimedOut := false;
      pageSettled := false;
      staleDeadlock := false;
      generation := pauseGeneration;
    }

    method MarkHitlWaitEntered(page: string)
      modifies `pausePage, `pauseGeneration, `waitTimedOut, `pageSettled, `staleDeadlock, `waitEntered
      ensures PauseValue() == PauseAfter(old(PauseValue()), WaitEntered(page))
    {
      waitEntered := true;
      if page != "" {
        var _ := BeginHitlPause(page);
      }
    }

    method MarkHitlResumed()
      modifies `pausePage, `resumedGeneration, `resumedObserved
      ensures PauseValue() == PauseAfter(old(PauseValue()), Resumed)
    {
      resumedObserved := true;
      resumedGeneration := pauseGeneration;
      pausePage := None;
    }

    method MarkHitlWaitTimedOut()
      modifies `waitTimedOut
      ensures PauseValue() == PauseAfter(old(PauseValue()), Event.WaitTimedOut)
    {
      waitTimedOut := true;
    }

    method MarkHitlPageSettled()
      modifies `pageSettled
      ensures PauseValue() == PauseAfter(old(PauseValue()), Event.PageSettled)
    {
      pageSettled := true;
    }

    method MarkHitlStalePauseDeadlock()
      modifies `staleDeadlock
      ensures PauseValue() == PauseAfter(old(PauseValue()), Event.StaleDeadlock)
    {
      staleDeadlock := true;
    }

    method RecordException(isContextLimit: bool)
      modifies `contextLimit
      ensures Value() == After(old(Value()), Exception(isContextLimit))
    {
      contextLimit := isContextLimit;
    }

    method ObservePause(receipt: Receipt)
      modifies `pausePage, `pauseGeneration, `waitTimedOut, `pageSettled, `staleDeadlock
      modifies `resumedGeneration, `resumedObserved
      ensures PauseValue() == PauseAfter(old(PauseValue()), Observe(receipt))
    {
      hide Opened, Cleared, Unresolved;
      if receipt.pausesPage {
        if receipt.waitResumed {
          MarkHitlResumed();
        } else if receipt.page != "" && !HitlUnresolved() {
          var _ := BeginHitlPause(receipt.page);
        }
      }
    }

    method RememberCall(call: Call)
      modifies `recentCalls
      ensures recentCalls == LastN(old(recentCalls) + [call], RECENT_CALLS_MAX)
    {
      recentCalls := recentCalls + [call];
      if |recentCalls| > RECENT_CALLS_MAX {
        recentCalls := recentCalls[|recentCalls| - RECENT_CALLS_MAX..];
      }
    }

    method ObserveBrowserCall(receipt: Receipt)
      modifies this
      ensures Value() == After(old(Value()), Observe(receipt))
    {
      hide PauseAfter, LastN;
      if receipt.routing.Some? {
        routingFailure := receipt.routing;
      }
      ObservePause(receipt);
      if receipt.contractError {
        contractErrors := contractErrors + 1;
      }
      RememberCall(receipt.call);
    }
  }

  // ---- Whole runs ----

  function Run(events: seq<Event>): View {
    if events == [] then FRESH else After(Run(events[..|events| - 1]), events[|events| - 1])
  }

  function PauseRun(events: seq<Event>): Pause {
    Run(events).pause
  }

  datatype Effect = NoEffect | Opens | Closes

  /** What an event says about the pause, whatever came before it. */
  function EffectOf(event: Event): Effect {
    match event
    case Observe(r) =>
      if !r.pausesPage then NoEffect else if r.waitResumed then Closes else if r.page == "" then NoEffect else Opens
    case Begin(page) => if page == "" then Closes else Opens
    case WaitEntered(page) => if page == "" then NoEffect else Opens
    case Resumed => Closes
    case _ => NoEffect
  }

  function LastEffect(events: seq<Event>): Effect {
    if events == [] then NoEffect
    else
      var last := EffectOf(events[|events| - 1]);
      if last.NoEffect? then LastEffect(events[..|events| - 1]) else last
  }

  /** Whether an event starts a new pause generation: a receipt only when no pause is open. */
  predicate Starts(event: Event, open: bool) {
    match event
    case Observe(r) => r.pausesPage && !r.waitResumed && r.page != "" && !open
    case Begin(_) => true
    case WaitEntered(page) => page != ""
    case _ => false
  }

  predicate StartsGeneration(events: seq<Event>)
    requires events != []
  {
    Starts(events[|events| - 1], LastEffect(events[..|events| - 1]).Opens?)
  }

  function Generations(events: seq<Event>): nat {
    if events == [] then 0
    else if StartsGeneration(events) then Generations(events[..|events| - 1]) + 1
    else Generations(events[..|events| - 1])
  }

  predicate Lawful(pause: Pause) {
    pause.resumedGeneration <= pause.generation && (pause.page.Some? ==> pause.resumedGeneration < pause.generation)
  }

  lemma AfterIsLawful(pause: Pause, event: Event)
    requires Lawful(pause)
    ensures Lawful(PauseAfter(pause, event))
    ensures Unresolved(PauseAfter(pause, event)) <==>
              EffectOf(event).Opens? || (EffectOf(event).NoEffect? && Unresolved(pause))
  {
  }

  /** In every run: resumed never passes paused, a pending page means strictly less, and the last effect decides. */
  lemma {:induction false} GenerationsAreOrdered(events: seq<Event>)
    ensures Lawful(PauseRun(events))
    ensures Unresolved(PauseRun(events)) <==> LastEffect(events).Opens?
    ensures Unresolved(PauseRun(events)) <==> PauseRun(events).page.Some?
  {
    if events != [] {
      GenerationsAreOrdered(events[..|events| - 1]);
      AfterIsLawful(PauseRun(events[..|events| - 1]), events[|events| - 1]);
      hide PauseAfter;
    }
  }

  /** The generation counter counts the pauses: a receipt for a pause already open opens no second one. */
  lemma {:induction false} GenerationsAreCounted(events: seq<Event>)
    ensures PauseRun(events).generation == Generations(events)
  {
    if events != [] {
      GenerationsAreOrdered(events[..|events| - 1]);
      GenerationsAreCounted(events[..|events| - 1]);
      PauseStep(PauseRun(events[..|events| - 1]), events[|events| - 1]);
      hide PauseAfter, Starts, Unresolved, LastEffect;
    }
  }

  lemma PauseStep(pause: Pause, event: Event)
    ensures var after := PauseAfter(pause, event);
            if Starts(event, Unresolved(pause)) then
              after.generation == pause.generation + 1 && !after.waitTimedOut && !after.pageSettled && !after.staleDeadlock
            else
              && after.generation == pause.generation
              && after.waitTimedOut == (pause.waitTimedOut || event == WaitTimedOut)
              && after.pageSettled == (pause.pageSettled || event == PageSettled)
              && after.staleDeadlock == (pause.staleDeadlock || event == StaleDeadlock)
  {
  }

  predicate StartsAt(events: seq<Event>, i: nat)
    requires i < |events|
  {
    StartsGeneration(events[..i + 1])
  }

  ghost predicate NoStartAfter(events: seq<Event>, i: nat) {
    forall j :: i < j < |events| ==> !StartsAt(events, j)
  }

  /** The event happened and no generation started since. */
  ghost predicate SinceLastStart(events: seq<Event>, event: Event) {
    exists i :: 0 <= i < |events| && events[i] == event && NoStartAfter(events, i)
  }

  lemma SinceLastStartStep(events: seq<Event>, event: Event)
    requires events != [] && event in {WaitTimedOut, PageSettled, StaleDeadlock}
    ensures var before, last := events[..|events| - 1], events[|events| - 1];
            SinceLastStart(events, event) <==> !StartsGeneration(events) && (last == event || SinceLastStart(before, event))
  {
    var before, last := events[..|events| - 1], events[|events| - 1];
    assert events[..|events|] == events && (StartsAt(events, |before|) <==> StartsGeneration(events));
    forall j | 0 <= j < |before| ensures StartsAt(events, j) == StartsAt(before, j) {
      assert events[..j + 1] == before[..j + 1];
    }
    if last == event {
      assert NoStartAfter(events, |before|);
    }
    if !StartsGeneration(events) && SinceLastStart(before, event) {
      var i :| 0 <= i < |before| && before[i] == event && NoStartAfter(before, i);
      assert events[i] == event && NoStartAfter(events, i);
    }
    if SinceLastStart(events, event) && last != event {
      var i :| 0 <= i < |events| && events[i] == event && NoStartAfter(events, i);
      assert before[i] == event && NoStartAfter(before, i);
    }
  }

  /** Terminal flags never leak into a later pause. */
  lemma {:induction false} FlagsBelongToCurrentPause(events: seq<Event>)
    ensures PauseRun(events).waitTimedOut <==> SinceLastStart(events, WaitTimedOut)
    ensures PauseRun(events).pageSettled <==> SinceLastStart(events, PageSettled)
    ensures PauseRun(events).staleDeadlock <==> SinceLastStart(events, StaleDeadlock)
  {
    if events != [] {
      var before := events[..|events| - 1];
      FlagsBelongToCurrentPause(before);
      GenerationsAreOrdered(before);
      PauseStep(PauseRun(before), events[|events| - 1]);
      SinceLastStartStep(events, WaitTimedOut);
      SinceLastStartStep(events, PageSettled);
      SinceLastStartStep(events, StaleDeadlock);
      hide SinceLastStart, PauseAfter, Starts, Unresolved, LastEffect;
    }
  }

  // ---- A resume carries no pause identity ----

  predicate ResumesGeneration(pause: Pause, n: nat) {
    n <= PauseAfter(pause, Resumed).resumedGeneration
  }

  /** No pause newer than generation g is resumed. */
  ghost predicate SparesNewerPauses(pause: Pause, g: nat) {
    forall n: nat :: g < n <= pause.generation ==> !ResumesGeneration(pause, n)
  }

  /** A resume meant for generation g spares newer pauses exactly when there are none. */
  lemma ResumeSparesNewerIff(pause: Pause, g: nat)
    ensures SparesNewerPauses(pause, g) <==> pause.generation <= g
  {
    assert ResumesGeneration(pause, pause.generation);
  }

  /** The failing family: the first pause's resume arrives after the second pause began and clears it. */
  lemma LateResumeClearsNextPause()
    ensures var events := [WaitEntered("a"), WaitEntered("b"), Resumed];
            && Unresolved(PauseRun(events[..2])) && PauseRun(events[..2]).generation == 2
            && !Unresolved(PauseRun(events))
  {
    var events := [WaitEntered("a"), WaitEntered("b"), Resumed];
    GenerationsAreOrdered(events[..2]);
    GenerationsAreOrdered(events);
    assert events[..2][..1] == events[..1] && events[..1][..0] == [];
    assert |"a"| == 1 && |"b"| == 1;
    assert Run([]) == FRESH;
    assert Run(events[..1]) == After(FRESH, events[0]);
    assert PauseRun(events[..1]).generation == 1;
    assert Run(events[..2]) == After(Run(events[..1]), events[1]);
  }

  // ---- The bounded call history ----

  function AllCalls(events: seq<Event>): seq<Call> {
    if events == [] then []
    else if events[|events| - 1].Observe? then AllCalls(events[..|events| - 1]) + [events[|events| - 1].receipt.call]
    else AllCalls(events[..|events| - 1])
  }

  lemma {:induction false} HistoryIsLastCalls(events: seq<Event>)
    ensures Run(events).recentCalls == LastN(AllCalls(events), RECENT_CALLS_MAX)
  {
    if events != [] {
      hide PauseAfter, LastN;
      var before, last := events[..|events| - 1], events[|events| - 1];
      HistoryIsLastCalls(before);
      if last.Observe? {
        LastNAppend(AllCalls(before), last.receipt.call, RECENT_CALLS_MAX);
      }
    }
  }

  function DeadPages(calls: seq<Call>): nat {
    if calls == [] then 0
    else if calls[0].pageDead then DeadPages(calls[1..]) + 1
    else DeadPages(calls[1..])
  }

  predicate IsPageCrashed(calls: seq<Call>) {
    var window := LastN(calls, PAGE_CRASHED_LOOKBACK);
    |window| >= PAGE_CRASHED_THRESHOLD && DeadPages(window) >= PAGE_CRASHED_THRESHOLD
  }

  function Extractions(calls: seq<Call>): seq<Call> {
    if calls == [] then []
    else if calls[0].isExtraction then [calls[0]] + Extractions(calls[1..])
    else Extractions(calls[1..])
  }

  function Failures(calls: seq<Call>): nat {
    if calls == [] then 0
    else if calls[0].extractionFailure then Failures(calls[1..]) + 1
    else Failures(calls[1..])
  }

  predicate IsExtractionInconclusive(calls: seq<Call>, hasArtifact: bool) {
    var window := LastN(Extractions(calls), EXTRACTION_LOOKBACK);
    !hasArtifact && |window| >= EXTRACTION_THRESHOLD && Failures(window) >= EXTRACTION_THRESHOLD
  }

  /** Trimming the history never changes the page-crashed verdict. */
  lemma TrimmedHistoryKeepsCrashVerdict(events: seq<Event>)
    ensures IsPageCrashed(Run(events).recentCalls) <==> IsPageCrashed(AllCalls(events))
  {
    HistoryIsLastCalls(events);
    assert LastN(LastN(AllCalls(events), RECENT_CALLS_MAX), PAGE_CRASHED_LOOKBACK)
        == LastN(AllCalls(events), PAGE_CRASHED_LOOKBACK);
  }

  lemma {:induction false} ExtractionsAppend(a: seq<Call>, b: seq<Call>)
    ensures Extractions(a + b) == Extractions(a) + Extractions(b)
  {
    if a == [] {
      assert a + b == b;
    } else {
      ExtractionsAppend(a[1..], b);
      assert (a + b)[0] == a[0] && (a + b)[1..] == a[1..] + b;
    }
  }

  lemma {:induction false} FailuresAppend(a: seq<Call>, b: seq<Call>)
    ensures Failures(a + b) == Failures(a) + Failures(b)
  {
    if a == [] {
      assert a + b == b;
    } else {
      FailuresAppend(a[1..], b);
      assert (a + b)[0] == a[0] && (a + b)[1..] == a[1..] + b;
    }
  }

  /** The calls no longer kept. */
  function Dropped(events: seq<Event>): seq<Call> {
    var all := AllCalls(events);
    if |all| <= RECENT_CALLS_MAX then [] else all[..|all| - RECENT_CALLS_MAX]
  }

  lemma {:induction false} FewFailures(calls: seq<Call>)
    ensures Failures(calls) <= |calls|
  {
    if calls != [] {
      FewFailures(calls[1..]);
    }
  }

  lemma LastNJoin(older: seq<Call>, newer: seq<Call>, n: nat)
    ensures |newer| >= n ==> LastN(older + newer, n) == LastN(newer, n)
    ensures |newer| < n ==> LastN(older + newer, n) == LastN(older, n - |newer|) + newer
  {
  }

  /** The last ten of a list, counted from its two halves. */
  lemma LastTenFailures(older: seq<Call>, newer: seq<Call>)
    ensures Failures(LastN(older + newer, EXTRACTION_LOOKBACK)) ==
              if |newer| >= EXTRACTION_LOOKBACK then Failures(LastN(newer, EXTRACTION_LOOKBACK))
              else Failures(LastN(older, EXTRACTION_LOOKBACK - |newer|)) + Failures(newer)
  {
    LastNJoin(older, newer, EXTRACTION_LOOKBACK);
    if |newer| < EXTRACTION_LOOKBACK {
      FailuresAppend(LastN(older, EXTRACTION_LOOKBACK - |newer|), newer);
    }
    hide LastN, Failures;
  }

  lemma InconclusiveByFailures(calls: seq<Call>, hasArtifact: bool)
    ensures IsExtractionInconclusive(calls, hasArtifact) <==>
              !hasArtifact && Failures(LastN(Extractions(calls), EXTRACTION_LOOKBACK)) >= EXTRACTION_THRESHOLD
  {
    FewFailures(LastN(Extractions(calls), EXTRACTION_LOOKBACK));
  }

  /**
   * The verdict on the kept history differs from the one on the whole history exactly when, without an artifact, fewer
   * than ten extractions are kept, fewer than five of them failed, and the newest dropped ones make up the five.
   */
  lemma TrimmedHistoryHidesExtractionsIff(events: seq<Event>, hasArtifact: bool)
    ensures var kept, dropped := Extractions(Run(events).recentCalls), Extractions(Dropped(events));
            IsExtractionInconclusive(Run(events).recentCalls, hasArtifact) != IsExtractionInconclusive(AllCalls(events), hasArtifact)
            <==> && !hasArtifact && |kept| < EXTRACTION_LOOKBACK && Failures(kept) < EXTRACTION_THRESHOLD
                 && Failures(LastN(dropped, EXTRACTION_LOOKBACK - |kept|)) >= EXTRACTION_THRESHOLD - Failures(kept)
  {
    HistoryIsLastCalls(events);
    var all, recent, dropped := AllCalls(events), Run(events).recentCalls, Dropped(events);
    assert all == dropped + recent;
    ExtractionsAppend(dropped, recent);
    LastTenFailures(Extractions(dropped), Extractions(recent));
    InconclusiveByFailures(all, hasArtifact);
    InconclusiveByFailures(recent, hasArtifact);
    hide Run, AllCalls, Dropped, Extractions, Failures, IsExtractionInconclusive;
  }

  function Copies(call: Call, n: nat): seq<Call> {
    if n == 0 then [] else Copies(call, n - 1) + [call]
  }

  /** Five failed extractions followed by fifty other calls: the whole history convicts, the kept one cannot. */
  lemma OtherCallsHideExtractions()
    ensures var failed, other := Call(true, false, true), Call(false, false, false);
            var all := Copies(failed, 5) + Copies(other, 50);
            IsExtractionInconclusive(all, false) && !IsExtractionInconclusive(LastN(all, RECENT_CALLS_MAX), false)
  {
    var failed, other := Call(true, false, true), Call(false, false, false);
    var all := Copies(failed, 5) + Copies(other, 50);
    CopiesCount(failed, 5);
    CopiesCount(other, 50);
    ExtractionsAppend(Copies(failed, 5), Copies(other, 50));
    assert Extractions(all) == Copies(failed, 5);
    assert LastN(all, RECENT_CALLS_MAX) == Copies(other, 50);
  }

  lemma {:induction false} CopiesCount(call: Call, n: nat)
    ensures |Copies(call, n)| == n
    ensures Extractions(Copies(call, n)) == if call.isExtraction then Copies(call, n) else []
    ensures Failures(Copies(call, n)) == if call.extractionFailure then n else 0
  {
    if n > 0 {
      CopiesCount(call, n - 1);
      ExtractionsAppend(Copies(call, n - 1), [call]);
      FailuresAppend(Copies(call, n - 1), [call]);
    }
  }

  // ---- The final status ----

  datatype Status =
    | Done
    | Incomplete
    | Partial
    | ExtractionInconclusive
    | HitlRequired
    | HitlWaiting
    | HitlTimeout
    | PageSettledAfterHitl
    | StalePauseDeadlock
    | BlockedByChallenge
    | ContextLimitExceeded
    | RoutingFailed(routing: Routing)
    | ContractError
    | PageCrashed
    | StepBudgetExhausted
    | Unknown

  // What the model reported: nothing, a status name (exact, or with blanks around it), or some other text.
  datatype Claim = NoClaim | Named(status: Status, exact: bool) | OtherText

  datatype Verdict = Verdict(status: Status, hasReason: bool)

  function SoftStatus(claim: Claim): Status {
    if claim.Named? && claim.status in {Done, Incomplete, Partial, ExtractionInconclusive} then claim.status else Unknown
  }

  function HitlStatus(pause: Pause): Option<Status> {
    if !Unresolved(pause) then None
    else if pause.staleDeadlock then Some(StalePauseDeadlock)
    else if pause.pageSettled then Some(PageSettledAfterHitl)
    else if pause.waitTimedOut then Some(HitlTimeout)
    else Some(HitlWaiting)
  }

  function HardStatus(d: View, stepCap: bool, hasArtifact: bool): Option<Status> {
    if d.contextLimit then Some(ContextLimitExceeded)
    else if d.routingFailure.Some? then Some(RoutingFailed(d.routingFailure.value))
    else if HitlStatus(d.pause).Some? then HitlStatus(d.pause)
    else if !stepCap then None
    else if d.contractErrors >= CONTRACT_ERROR_THRESHOLD then Some(ContractError)
    else if IsPageCrashed(d.recentCalls) then Some(PageCrashed)
    else if IsExtractionInconclusive(d.recentCalls, hasArtifact) then Some(ExtractionInconclusive)
    else Some(StepBudgetExhausted)
  }

  predicate ClaimsChallenge(claim: Claim) {
    claim.Named? && claim.exact && claim.status in {BlockedByChallenge, HitlRequired, PageSettledAfterHitl, StalePauseDeadlock}
  }

  function ClassifyTerminalStatus(d: View, claim: Claim, stepCap: bool, hasArtifact: bool): Verdict {
    if d.authorizationPending then Verdict(HitlRequired, true)
    else
      var detected := HardStatus(d, stepCap, hasArtifact);
      if claim.NoClaim? then
        if detected.Some? then Verdict(detected.value, false)
        else if stepCap then Verdict(StepBudgetExhausted, false)
        else Verdict(Unknown, true)
      else
        var soft := SoftStatus(claim);
        var recovered := detected == Some(StalePauseDeadlock) && soft in {Done, Partial} && !stepCap && hasArtifact;
        var hard := if recovered then None else detected;
        if soft == Done && hard.None? then Verdict(Done, false)
        else if hard.Some? && hard.value != soft then Verdict(hard.value, true)
        else if soft == Unknown && ClaimsChallenge(claim) then Verdict(Incomplete, true)
        else if soft == Unknown then Verdict(Unknown, true)
        else Verdict(soft, false)
  }

  /** Success needs a claim of it, no step cap, and no obstacle but a deadlocked pause left behind with artifacts. */
  lemma SuccessIff(d: View, claim: Claim, stepCap: bool, hasArtifact: bool)
    ensures var status := ClassifyTerminalStatus(d, claim, stepCap, hasArtifact).status;
            status in {Done, Partial} <==>
              && claim.Named? && claim.status in {Done, Partial} && !stepCap
              && !d.authorizationPending && !d.contextLimit && d.routingFailure.None?
              && (Unresolved(d.pause) ==> d.pause.staleDeadlock && hasArtifact)
  {
  }

  /** Over whole runs: with a pause open, success takes a deadlock seen since it began, an artifact and no step cap. */
  lemma OpenPauseBlocksSuccess(events: seq<Event>, claim: Claim, stepCap: bool, hasArtifact: bool)
    requires LastEffect(events).Opens?
    ensures var status := ClassifyTerminalStatus(Run(events), claim, stepCap, hasArtifact).status;
            status in {Done, Partial} ==> SinceLastStart(events, StaleDeadlock) && hasArtifact && !stepCap
  {
    GenerationsAreOrdered(events);
    FlagsBelongToCurrentPause(events);
    SuccessIff(Run(events), claim, stepCap, hasArtifact);
    hide SinceLastStart, Run, ClassifyTerminalStatus;
  }

  /** A model's word alone never yields a hard status: each one has its evidence in the run. */
  lemma HardStatusNeedsEvidence(events: seq<Event>, claim: Claim, stepCap: bool, hasArtifact: bool)
    ensures var d := Run(events);
            match ClassifyTerminalStatus(d, claim, stepCap, hasArtifact).status
            case HitlWaiting | HitlTimeout | PageSettledAfterHitl | StalePauseDeadlock => LastEffect(events).Opens?
            case HitlRequired => d.authorizationPending
            case PageCrashed => stepCap && IsPageCrashed(AllCalls(events))
            case ContractError => stepCap && d.contractErrors >= CONTRACT_ERROR_THRESHOLD
            case BlockedByChallenge => false
            case _ => true
  {
    GenerationsAreOrdered(events);
    TrimmedHistoryKeepsCrashVerdict(events);
    hide Run, IsPageCrashed, LastEffect;
  }

  // ---- The fields of a run, each read off its events ----

  ghost predicate LatestStart(events: seq<Event>, i: nat) {
    i < |events| && StartsAt(events, i) && NoStartAfter(events, i)
  }

  function PageOf(event: Event): string {
    match event
    case Observe(receipt) => receipt.page
    case Begin(page) => page
    case WaitEntered(page) => page
    case _ => ""
  }

  lemma LatestStartStep(events: seq<Event>, i: nat)
    requires events != []
    ensures var before := events[..|events| - 1];
            LatestStart(events, i) <==>
              if StartsGeneration(events) then i == |events| - 1 else LatestStart(before, i)
  {
    var before := events[..|events| - 1];
    assert events[..|events|] == events && (StartsAt(events, |before|) <==> StartsGeneration(events));
    forall j | 0 <= j < |before| ensures StartsAt(events, j) == StartsAt(before, j) {
      assert events[..j + 1] == before[..j + 1];
    }
    hide StartsAt, StartsGeneration;
    if LatestStart(events, i) && !StartsGeneration(events) {
      assert NoStartAfter(before, i);
    }
  }

  lemma PageStep(pause: Pause, event: Event)
    requires Lawful(pause)
    ensures var after := PauseAfter(pause, event);
            after.page.Some? ==>
              if Starts(event, Unresolved(pause)) then after.page == Some(PageOf(event)) else after.page == pause.page
  {
  }

  /** A remembered page is the page of the event that began the latest pause. */
  lemma {:induction false} PageIsLatest(events: seq<Event>) returns (i: nat)
    ensures PauseRun(events).page.Some? ==> LatestStart(events, i) && PauseRun(events).page == Some(PageOf(events[i]))
  {
    i := 0;
    if events != [] {
      var before, last := events[..|events| - 1], events[|events| - 1];
      i := PageIsLatest(before);
      GenerationsAreOrdered(before);
      PageStep(PauseRun(before), last);
      if StartsGeneration(events) {
        i := |before|;
      }
      LatestStartStep(events, i);
      hide PauseAfter, LatestStart, Starts, Unresolved, LastEffect;
    }
  }

  predicate Resumes(event: Event) {
    event.Resumed? || (event.Observe? && event.receipt.pausesPage && event.receipt.waitResumed)
  }

  /** A wait was entered, and a resume was observed, exactly when the run has such an event. */
  lemma {:induction false} WaitFlagsRecordEvents(events: seq<Event>)
    ensures PauseRun(events).waitEntered <==> exists e :: e in events && e.WaitEntered?
    ensures PauseRun(events).resumedObserved <==> exists e :: e in events && Resumes(e)
  {
    if events != [] {
      var before, last := events[..|events| - 1], events[|events| - 1];
      assert events == before + [last];
      WaitFlagsRecordEvents(before);
      WaitFlagsStep(PauseRun(before), last);
      assert last in events && forall e :: e in events <==> e in before || e == last;
      hide PauseAfter, Resumes;
    }
  }

  lemma WaitFlagsStep(pause: Pause, event: Event)
    ensures PauseAfter(pause, event).waitEntered <==> pause.waitEntered || event.WaitEntered?
    ensures PauseAfter(pause, event).resumedObserved <==> pause.resumedObserved || Resumes(event)
  {
  }

  /** The latest exception was a context limit. */
  ghost predicate ContextLimited(events: seq<Event>) {
    exists i :: 0 <= i < |events| && events[i] == Exception(true) && forall j :: i < j < |events| ==> !events[j].Exception?
  }

  predicate Routes(event: Event) {
    event.Observe? && event.receipt.routing.Some?
  }

  /** The latest receipt with a routing failure has this one. */
  ghost predicate RoutingIs(events: seq<Event>, routing: Routing) {
    exists i :: 0 <= i < |events| && events[i].Observe? && events[i].receipt.routing == Some(routing)
                && forall j :: i < j < |events| ==> !Routes(events[j])
  }

  function ContractErrorsAt(events: seq<Event>): set<nat> {
    set i: nat | i < |events| && events[i].Observe? && events[i].receipt.contractError
  }

  lemma ContextLimitedStep(before: seq<Event>, last: Event)
    ensures ContextLimited(before + [last]) <==> if last.Exception? then last.contextLimit else ContextLimited(before)
  {
    var all := before + [last];
    if last.Exception? && last.contextLimit {
      assert all[|before|] == Exception(true);
    }
    if ContextLimited(before) && !last.Exception? {
      var i :| 0 <= i < |before| && before[i] == Exception(true) && forall j :: i < j < |before| ==> !before[j].Exception?;
      assert all[i] == Exception(true);
    }
    if ContextLimited(all) && !last.Exception? {
      var i :| 0 <= i < |all| && all[i] == Exception(true) && forall j :: i < j < |all| ==> !all[j].Exception?;
      assert before[i] == Exception(true);
      forall j | i < j < |before| ensures !before[j].Exception? {
        assert all[j] == before[j];
      }
    }
    if ContextLimited(all) && last.Exception? {
      assert all[|before|] == last;
    }
  }

  lemma RoutingStep(before: seq<Event>, last: Event, routing: Routing)
    ensures RoutingIs(before + [last], routing) <==>
      if Routes(last) then last.receipt.routing == Some(routing) else RoutingIs(before, routing)
  {
    var all := before + [last];
    if Routes(last) {
      assert all[|before|] == last;
    } else {
      if RoutingIs(before, routing) {
        var i :| 0 <= i < |before| && before[i].Observe? && before[i].receipt.routing == Some(routing)
                 && forall j :: i < j < |before| ==> !Routes(before[j]);
        assert all[i] == before[i];
      }
      if RoutingIs(all, routing) {
        var i :| 0 <= i < |all| && all[i].Observe? && all[i].receipt.routing == Some(routing)
                 && forall j :: i < j < |all| ==> !Routes(all[j]);
        assert before[i] == all[i];
        forall j | i < j < |before| ensures !Routes(before[j]) {
          assert all[j] == before[j];
        }
      }
    }
  }

  lemma ContractErrorsStep(before: seq<Event>, last: Event)
    ensures |ContractErrorsAt(before + [last])| ==
      |ContractErrorsAt(before)| + if last.Observe? && last.receipt.contractError then 1 else 0
  {
    assert ContractErrorsAt(before + [last]) ==
      ContractErrorsAt(before) + if last.Observe? && last.receipt.contractError then {|before|} else {};
  }

  lemma {:induction false} FieldsRecordEvents(events: seq<Event>)
    ensures !Run(events).authorizationPending
    ensures Run(events).contextLimit <==> ContextLimited(events)
    ensures forall routing :: Run(events).routingFailure == Some(routing) <==> RoutingIs(events, routing)
    ensures Run(events).contractErrors == |ContractErrorsAt(events)|
  {
    if events == [] {
      assert ContractErrorsAt([]) == {};
    } else {
      var before, last := events[..|events| - 1], events[|events| - 1];
      assert events == before + [last];
      FieldsRecordEvents(before);
      ContextLimitedStep(before, last);
      ContractErrorsStep(before, last);
      forall routing ensures Run(events).routingFailure == Some(routing) <==> RoutingIs(events, routing) {
        RoutingStep(before, last, routing);
      }
      hide PauseAfter, CallsAfter, ContextLimited, RoutingIs, ContractErrorsAt;
    }
  }

  lemma {:induction false} CountsAre(calls: seq<Call>, dead: Call -> bool, extraction: Call -> bool, failed: Call -> bool)
    requires forall c: Call :: dead(c) == c.pageDead && extraction(c) == c.isExtraction && failed(c) == c.extractionFailure
    ensures DeadPages(calls) == |Filter(calls, dead)| && Failures(calls) == |Filter(calls, failed)|
    ensures Extractions(calls) == Filter(calls, extraction)
  {
    if calls != [] {
      CountsAre(calls[1..], dead, extraction, failed);
    }
  }

  /** Three dead pages among the last five calls; without an artifact, five failures among the last ten extractions. */
  lemma CallVerdictsIff(calls: seq<Call>, hasArtifact: bool, dead: Call -> bool, extraction: Call -> bool, failed: Call -> bool)
    requires forall c: Call :: dead(c) == c.pageDead && extraction(c) == c.isExtraction && failed(c) == c.extractionFailure
    ensures IsPageCrashed(calls) <==> |Filter(LastN(calls, 5), dead)| >= 3
    ensures IsExtractionInconclusive(calls, hasArtifact) <==>
      !hasArtifact && |Filter(LastN(Filter(calls, extraction), 10), failed)| >= 5
  {
    CountsAre(LastN(calls, 5), dead, extraction, failed);
    CountsAre(calls, dead, extraction, failed);
    CountsAre(LastN(Extractions(calls), 10), dead, extraction, failed);
    FewFailures(LastN(Extractions(calls), 10));
    FewDeadPages(LastN(calls, 5));
    hide Filter, DeadPages, Failures, Extractions;
  }

  lemma {:induction false} FewDeadPages(calls: seq<Call>)
    ensures DeadPages(calls) <= |calls|
  {
    if calls != [] {
      FewDeadPages(calls[1..]);
    }
  }

  // ---- The final status, in terms of what happened ----

  /** Nothing in the run decides the status before the step cap and the claim do. */
  ghost predicate NoObstacle(events: seq<Event>) {
    !ContextLimited(events) && (forall routing :: !RoutingIs(events, routing)) && !LastEffect(events).Opens?
  }

  ghost predicate StatusFollows(events: seq<Event>, claim: Claim, stepCap: bool, hasArtifact: bool, status: Status) {
    && (ContextLimited(events) ==> status == ContextLimitExceeded)
    && (forall routing :: !ContextLimited(events) && RoutingIs(events, routing) ==> status == RoutingFailed(routing))
    && (!ContextLimited(events) && (forall routing :: !RoutingIs(events, routing)) && LastEffect(events).Opens? ==>
          if SinceLastStart(events, StaleDeadlock) then
            status == if claim.Named? && claim.status in {Done, Partial} && !stepCap && hasArtifact
                      then claim.status else StalePauseDeadlock
          else if SinceLastStart(events, PageSettled) then status == PageSettledAfterHitl
          else if SinceLastStart(events, WaitTimedOut) then status == HitlTimeout
          else status == HitlWaiting)
    && (NoObstacle(events) && stepCap ==>
          if |ContractErrorsAt(events)| >= 3 then status == ContractError
          else if IsPageCrashed(AllCalls(events)) then status == PageCrashed
          else if IsExtractionInconclusive(LastN(AllCalls(events), 50), hasArtifact) then status == ExtractionInconclusive
          else status == StepBudgetExhausted)
    && (NoObstacle(events) && !stepCap ==>
          if claim.Named? && claim.status in {Done, Incomplete, Partial, ExtractionInconclusive} then status == claim.status
          else if claim.Named? && claim.exact
                  && claim.status in {BlockedByChallenge, HitlRequired, PageSettledAfterHitl, StalePauseDeadlock}
          then status == Incomplete
          else status == Unknown)
  }

  lemma StatusWithObstacle(d: View, claim: Claim, stepCap: bool, hasArtifact: bool)
    requires !d.authorizationPending
    ensures var status := ClassifyTerminalStatus(d, claim, stepCap, hasArtifact).status;
      && (d.contextLimit ==> status == ContextLimitExceeded)
      && (!d.contextLimit && d.routingFailure.Some? ==> status == RoutingFailed(d.routingFailure.value))
      && (!d.contextLimit && d.routingFailure.None? && Unresolved(d.pause) ==>
            if d.pause.staleDeadlock then
              status == if claim.Named? && claim.status in {Done, Partial} && !stepCap && hasArtifact
                        then claim.status else StalePauseDeadlock
            else if d.pause.pageSettled then status == PageSettledAfterHitl
            else if d.pause.waitTimedOut then status == HitlTimeout
            else status == HitlWaiting)
  {
    hide IsPageCrashed, IsExtractionInconclusive, Unresolved;
  }

  lemma StatusWithoutObstacle(d: View, claim: Claim, stepCap: bool, hasArtifact: bool)
    requires !d.authorizationPending && !d.contextLimit && d.routingFailure.None? && !Unresolved(d.pause)
    ensures var status := ClassifyTerminalStatus(d, claim, stepCap, hasArtifact).status;
      if stepCap then
        if d.contractErrors >= 3 then status == ContractError
        else if IsPageCrashed(d.recentCalls) then status == PageCrashed
        else if IsExtractionInconclusive(d.recentCalls, hasArtifact) then status == ExtractionInconclusive
        else status == StepBudgetExhausted
      else if claim.Named? && claim.status in {Done, Incomplete, Partial, ExtractionInconclusive} then status == claim.status
      else if claim.Named? && claim.exact
              && claim.status in {BlockedByChallenge, HitlRequired, PageSettledAfterHitl, StalePauseDeadlock}
      then status == Incomplete
      else status == Unknown
  {
    hide IsPageCrashed, IsExtractionInconclusive, Unresolved;
  }

  /** Over whole runs: what happened, the step cap and the claim decide the status, in this order. */
  lemma StatusIsDecided(events: seq<Event>, claim: Claim, stepCap: bool, hasArtifact: bool)
    ensures StatusFollows(events, claim, stepCap, hasArtifact,
                          ClassifyTerminalStatus(Run(events), claim, stepCap, hasArtifact).status)
  {
    GenerationsAreOrdered(events);
    FlagsBelongToCurrentPause(events);
    FieldsRecordEvents(events);
    HistoryIsLastCalls(events);
    TrimmedHistoryKeepsCrashVerdict(events);
    var d := Run(events);
    assert d.routingFailure.Some? ==> RoutingIs(events, d.routingFailure.value);
    StatusWithObstacle(d, claim, stepCap, hasArtifact);
    if !d.contextLimit && d.routingFailure.None? && !Unresolved(d.pause) {
      StatusWithoutObstacle(d, claim, stepCap, hasArtifact);
    }
    hide ClassifyTerminalStatus, Run, IsPageCrashed, IsExtractionInconclusive, LastEffect, SinceLastStart, ContextLimited, RoutingIs, ContractErrorsAt,
         AllCalls, LastN, Unresolved;
  }

  /** A reason is given exactly when the status is not simply the one that was claimed, or found without a claim. */
  lemma ReasonIff(d: View, claim: Claim, stepCap: bool, hasArtifact: bool)
    ensures var v := ClassifyTerminalStatus(d, claim, stepCap, hasArtifact);
            v.hasReason <==>
              || d.authorizationPending
              || (claim.NoClaim? && v.status == Unknown)
              || (!claim.NoClaim? && !(claim.Named? && claim.status == v.status
                                       && v.status in {Done, Incomplete, Partial, ExtractionInconclusive}))
  {
    hide IsPageCrashed, IsExtractionInconclusive, Unresolved;
  }
}
