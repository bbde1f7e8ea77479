/** The bounded request loop, and what its failure list says about the requests that were sent. */
module Retry {
  import opened Wrappers

  // How one normal request ends. Only the middle four are worth another request.
  datatype Outcome = Good | Degenerate | TimedOut | BadStream | Dropped | Throttled | Failed

  datatype FallbackOutcome =
    | FallbackGood
    | FallbackInvalid
    | FallbackFailed
    | FallbackThrottled
    | FallbackRejected
    | FallbackCancelled

  datatype Reason =
    | Timeout
    | DegenerateResponse
    | ConnectionError
    | StreamDecodeError
    | NonstreamFallback
    | NonstreamFallbackFailed

  // One entry of the attempts list; delay is the pause before the next request, when there was one.
  datatype Attempt = Attempt(number: nat, reason: Reason, delay: Option<nat>)

  datatype Error =
    | RequestTimeout(attempts: seq<Attempt>)
    | EmptyResponse(attempts: seq<Attempt>)
    | ConnectionLost(attempts: seq<Attempt>)
    | ProtocolError(attempts: seq<Attempt>, fallbackAttempted: bool)
    | RateLimited
    | RaisedAsIs

  type Outcomes = nat -> Outcome

  datatype Policy = Policy(maxRetries: nat, backoff: nat, interval: Option<nat>)

  function Distance(a: int, b: int): nat {
    if a < b then b - a else a - b
  }

  /** The configured number of retries, kept between 0 and 10. */
  function MaxRetries(configured: int): (r: nat)
    ensures r <= 10 && (0 <= configured <= 10 ==> r == configured)
    ensures forall other: nat :: other <= 10 ==> Distance(r, configured) <= Distance(other, configured)
  {
    if configured < 0 then 0 else if configured > 10 then 10 else configured
  }

  function Pow2(n: nat): nat {
    if n == 0 then 1 else 2 * Pow2(n - 1)
  }

  /** Doubling from the base pause, unless a fixed interval was configured. */
  function Delay(policy: Policy, index: nat): nat {
    match policy.interval
    case Some(interval) => interval
    case None => policy.backoff * Pow2(index)
  }

  predicate Retryable(outcome: Outcome) {
    outcome.Degenerate? || outcome.TimedOut? || outcome.BadStream? || outcome.Dropped?
  }

  function ReasonOf(outcome: Outcome): Reason
    requires Retryable(outcome)
  {
    match outcome
    case Degenerate => DegenerateResponse
    case TimedOut => Timeout
    case BadStream => StreamDecodeError
    case Dropped => ConnectionError
  }

  // ---- What a whole run amounts to, read off the outcomes without running the loop ----

  /** The slot of the last normal request: the first one not worth repeating, or the last slot there is. */
  function LastSlot(outcomes: Outcomes, from: nat, maxRetries: nat): (i: nat)
    requires from <= maxRetries
    ensures from <= i <= maxRetries
    decreases maxRetries - from
  {
    if from == maxRetries || !Retryable(outcomes(from)) then from else LastSlot(outcomes, from + 1, maxRetries)
  }

  ghost predicate AllRetryable(outcomes: Outcomes, n: nat) {
    forall i: nat :: i < n ==> Retryable(outcomes(i))
  }

  /** The entries of the first n requests, each followed by another one. */
  ghost function Retried(outcomes: Outcomes, policy: Policy, n: nat): (r: seq<Attempt>)
    requires AllRetryable(outcomes, n)
    ensures |r| == n
  {
    if n == 0 then []
    else Retried(outcomes, policy, n - 1) + [Attempt(n, ReasonOf(outcomes(n - 1)), Some(Delay(policy, n - 1)))]
  }

  datatype Run = Run(result: Result<seq<Attempt>, Error>, sent: nat)

  function FinalError(outcome: Outcome, attempts: seq<Attempt>): Error
    requires Retryable(outcome)
  {
    match outcome
    case TimedOut => RequestTimeout(attempts)
    case Degenerate => EmptyResponse(attempts)
    case Dropped => ConnectionLost(attempts)
    case BadStream => ProtocolError(attempts, false)
  }

  /** After the last slot ended in a decode error: one non-stream request, if there is a way to make it. */
  function WithFallback(fallback: FallbackOutcome, attempts: seq<Attempt>, number: nat): Result<seq<Attempt>, Error> {
    match fallback
    case FallbackGood => Ok(attempts + [Attempt(number, NonstreamFallback, None)])
    case FallbackThrottled => Err(RateLimited)
    case FallbackRejected => Err(RaisedAsIs)
    case FallbackCancelled => Err(RaisedAsIs)
    case FallbackInvalid => Err(ProtocolError(attempts + [Attempt(number, NonstreamFallbackFailed, None)], true))
    case FallbackFailed => Err(ProtocolError(attempts + [Attempt(number, NonstreamFallbackFailed, None)], true))
  }

  /** How a call ends when the normal request in slot last was its final one. */
  function Ended(outcome: Outcome, fallback: Option<FallbackOutcome>, before: seq<Attempt>, last: nat): Run {
    if outcome.Good? then Run(Ok(before), last + 1)
    else if outcome.Throttled? then Run(Err(RateLimited), last + 1)
    else if outcome.Failed? then Run(Err(RaisedAsIs), last + 1)
    else
      var attempts := before + [Attempt(last + 1, ReasonOf(outcome), None)];
      if outcome.BadStream? && fallback.Some?
      then Run(WithFallback(fallback.value, attempts, last + 2), last + 2)
      else Run(Err(FinalError(outcome, attempts)), last + 1)
  }

  ghost function Expected(outcomes: Outcomes, fallback: Option<FallbackOutcome>, policy: Policy): Run {
    var last := LastSlot(outcomes, 0, policy.maxRetries);
    SlotsBeforeLast(outcomes, 0, policy.maxRetries);
    Ended(outcomes(last), fallback, Retried(outcomes, policy, last), last)
  }

  lemma {:induction false} SlotsBeforeLast(outcomes: Outcomes, from: nat, maxRetries: nat)
    requires from <= maxRetries && AllRetryable(outcomes, from)
    ensures AllRetryable(outcomes, LastSlot(outcomes, from, maxRetries))
    ensures var last := LastSlot(outcomes, from, maxRetries); last < maxRetries ==> !Retryable(outcomes(last))
    decreases maxRetries - from
  {
    if from < maxRetries && Retryable(outcomes(from)) {
      SlotsBeforeLast(outcomes, from + 1, maxRetries);
    }
  }

  lemma {:induction false} LastSlotFrom(outcomes: Outcomes, from: nat, maxRetries: nat)
    requires from <= maxRetries && AllRetryable(outcomes, from)
    ensures LastSlot(outcomes, 0, maxRetries) == LastSlot(outcomes, from, maxRetries)
  {
    if from > 0 {
      LastSlotFrom(outcomes, from - 1, maxRetries);
    }
  }

  // ---- The loop ----

  /** Sends, collects failures, pauses, and stops; sent counts the requests made. */
  method RequestWithRetries(outcomes: Outcomes, fallback: Option<FallbackOutcome>, policy: Policy)
    returns (result: Result<seq<Attempt>, Error>, sent: nat)
    ensures Run(result, sent) == Expected(outcomes, fallback, policy)
  {
    var attempts: seq<Attempt> := [];
    sent := 0;
    for index := 0 to policy.maxRetries + 1
      invariant AllRetryable(outcomes, index) && index <= policy.maxRetries
      invariant attempts == Retried(outcomes, policy, index) && sent == index
    {
      LastSlotFrom(outcomes, index, policy.maxRetries);
      var outcome := outcomes(index);
      sent := sent + 1;
      match outcome {
        case Good => return Ok(attempts), sent;
        case Throttled => return Err(RateLimited), sent;
        case Failed => return Err(RaisedAsIs), sent;
        case _ =>
      }
      attempts := attempts + [Attempt(index + 1, ReasonOf(outcome), None)];
      if index < policy.maxRetries {
        var entry := attempts[|attempts| - 1];
        attempts := attempts[|attempts| - 1 := entry.(delay := Some(Delay(policy, index)))];
        assert attempts == Retried(outcomes, policy, index) + [entry.(delay := Some(Delay(policy, index)))];
        continue;
      }
      if outcome.BadStream? && fallback.Some? {
        sent := sent + 1;
        return WithFallback(fallback.value, attempts, policy.maxRetries + 2), sent;
      }
      return Err(FinalError(outcome, attempts)), sent;
    }
  }

  // ---- What the list says about each request ----

  /** Entry i is about request i: its number, its own kind of failure, and the pause before the next one, if there was one. */
  predicate EntryIs(entry: Attempt, outcomes: Outcomes, policy: Policy, i: nat) {
    && entry.number == i + 1
    && (entry.reason == Timeout <==> outcomes(i) == TimedOut)
    && (entry.reason == DegenerateResponse <==> outcomes(i) == Degenerate)
    && (entry.reason == StreamDecodeError <==> outcomes(i) == BadStream)
    && (entry.reason == ConnectionError <==> outcomes(i) == Dropped)
    && (i < policy.maxRetries && policy.interval.Some? ==> entry.delay == policy.interval)
    && (i < policy.maxRetries && policy.interval.None? ==> entry.delay == Some(policy.backoff * Pow2(i)))
    && (i >= policy.maxRetries ==> entry.delay == None)
  }

  predicate Lists(attempts: seq<Attempt>, outcomes: Outcomes, policy: Policy, n: nat) {
    n <= |attempts| && forall i :: 0 <= i < n ==> EntryIs(attempts[i], outcomes, policy, i)
  }

  /** How a call ends when request number last + 1 was its final normal one. */
  predicate EndsWith(run: Run, outcomes: Outcomes, fallback: Option<FallbackOutcome>, policy: Policy, last: nat) {
    match outcomes(last)
    case Good => run.sent == last + 1 && run.result.Ok? && |run.result.value| == last && Lists(run.result.value, outcomes, policy, last)
    case Throttled => run == Run(Err(RateLimited), last + 1)
    case Failed => run == Run(Err(RaisedAsIs), last + 1)
    case TimedOut =>
      run.sent == last + 1 && run.result.Err? && run.result.error.RequestTimeout?
      && |run.result.error.attempts| == last + 1 && Lists(run.result.error.attempts, outcomes, policy, last + 1)
    case Degenerate =>
      run.sent == last + 1 && run.result.Err? && run.result.error.EmptyResponse?
      && |run.result.error.attempts| == last + 1 && Lists(run.result.error.attempts, outcomes, policy, last + 1)
    case Dropped =>
      run.sent == last + 1 && run.result.Err? && run.result.error.ConnectionLost?
      && |run.result.error.attempts| == last + 1 && Lists(run.result.error.attempts, outcomes, policy, last + 1)
    case BadStream =>
      if fallback.None? then
        run.sent == last + 1 && run.result.Err? && run.result.error.ProtocolError? && !run.result.error.fallbackAttempted
        && |run.result.error.attempts| == last + 1 && Lists(run.result.error.attempts, outcomes, policy, last + 1)
      else
        run.sent == last + 2 &&
        match fallback.value
        case FallbackGood =>
          run.result.Ok? && |run.result.value| == last + 2 && Lists(run.result.value, outcomes, policy, last + 1)
          && run.result.value[last + 1] == Attempt(last + 2, NonstreamFallback, None)
        case FallbackThrottled => run.result == Err(RateLimited)
        case FallbackRejected | FallbackCancelled => run.result == Err(RaisedAsIs)
        case FallbackInvalid | FallbackFailed =>
          run.result.Err? && run.result.error.ProtocolError? && run.result.error.fallbackAttempted
          && |run.result.error.attempts| == last + 2 && Lists(run.result.error.attempts, outcomes, policy, last + 1)
          && run.result.error.attempts[last + 1] == Attempt(last + 2, NonstreamFallbackFailed, None)
  }

  lemma {:induction false} RetriedLists(outcomes: Outcomes, policy: Policy, n: nat)
    requires AllRetryable(outcomes, n) && n <= policy.maxRetries
    ensures Lists(Retried(outcomes, policy, n), outcomes, policy, n)
  {
    if n > 0 {
      RetriedLists(outcomes, policy, n - 1);
      assert Retryable(outcomes(n - 1));
    }
  }

  lemma ListsMore(attempts: seq<Attempt>, entry: Attempt, outcomes: Outcomes, policy: Policy, n: nat)
    requires |attempts| == n && Lists(attempts, outcomes, policy, n) && EntryIs(entry, outcomes, policy, n)
    ensures Lists(attempts + [entry], outcomes, policy, n + 1)
    ensures forall more: Attempt :: Lists(attempts + [entry] + [more], outcomes, policy, n + 1)
  {
    hide EntryIs;
  }

  /** Every call goes on while a request is worth repeating and retries are left; the request it stops at decides. */
  lemma RunEndsAsLast(outcomes: Outcomes, fallback: Option<FallbackOutcome>, policy: Policy) returns (last: nat)
    ensures last <= policy.maxRetries
    ensures forall i: nat :: i < last ==> outcomes(i) in {Degenerate, TimedOut, BadStream, Dropped}
    ensures last < policy.maxRetries ==> outcomes(last) in {Good, Throttled, Failed}
    ensures EndsWith(Expected(outcomes, fallback, policy), outcomes, fallback, policy, last)
  {
    last := LastSlot(outcomes, 0, policy.maxRetries);
    SlotsBeforeLast(outcomes, 0, policy.maxRetries);
    RetriedLists(outcomes, policy, last);
    var before := Retried(outcomes, policy, last);
    if Retryable(outcomes(last)) {
      assert last == policy.maxRetries;
      ListsMore(before, Attempt(last + 1, ReasonOf(outcomes(last)), None), outcomes, policy, last);
    }
    hide Retried, LastSlot, Lists, EntryIs;
  }

  // ---- The retry counters ----

  datatype Retries = Retries(timeouts: int, degenerates: int, connections: int, decodes: int) {
    function Plus(other: Retries): Retries {
      Retries(timeouts + other.timeouts, degenerates + other.degenerates,
              connections + other.connections, decodes + other.decodes)
    }

    function Minus(other: Retries): Retries {
      Retries(timeouts - other.timeouts, degenerates - other.degenerates,
              connections - other.connections, decodes - other.decodes)
    }

    function Total(): int {
      timeouts + degenerates + connections + decodes
    }
  }

  const NO_RETRIES: Retries := Retries(0, 0, 0, 0)

  /** A fallback entry belongs to no counter. */
  function One(reason: Reason): Retries {
    match reason
    case Timeout => Retries(1, 0, 0, 0)
    case DegenerateResponse => Retries(0, 1, 0, 0)
    case ConnectionError => Retries(0, 0, 1, 0)
    case StreamDecodeError => Retries(0, 0, 0, 1)
    case NonstreamFallback => NO_RETRIES
    case NonstreamFallbackFailed => NO_RETRIES
  }

  function Counter(retries: Retries, reason: Reason): int {
    match reason
    case Timeout => retries.timeouts
    case DegenerateResponse => retries.degenerates
    case ConnectionError => retries.connections
    case StreamDecodeError => retries.decodes
    case NonstreamFallback => 0
    case NonstreamFallbackFailed => 0
  }

  /** Entries per reason; what a successful call reports. */
  function Count(attempts: seq<Attempt>): (r: Retries)
    ensures r.timeouts >= 0 && r.degenerates >= 0 && r.connections >= 0 && r.decodes >= 0
  {
    if attempts == [] then NO_RETRIES
    else Count(attempts[..|attempts| - 1]).Plus(One(attempts[|attempts| - 1].reason))
  }

  lemma CountLast(attempts: seq<Attempt>, last: Attempt)
    ensures Count(attempts + [last]) == Count(attempts).Plus(One(last.reason))
  {
    assert (attempts + [last])[..|attempts + [last]| - 1] == attempts;
  }

  /** The counters of a call that raised: its last failure was not retried, so it does not count. */
  method RetryUsage(attempts: seq<Attempt>) returns (counts: Retries)
    ensures attempts == [] ==> counts == NO_RETRIES
    ensures attempts != [] ==> counts == Count(attempts[..|attempts| - 1])
  {
    counts := NO_RETRIES;
    for i := 0 to |attempts|
      invariant counts == Count(attempts[..i])
    {
      counts := counts.Plus(One(attempts[i].reason));
      CountLast(attempts[..i], attempts[i]);
      assert attempts[..i + 1] == attempts[..i] + [attempts[i]];
    }
    assert attempts[..|attempts|] == attempts;
    if attempts != [] {
      var reason := attempts[|attempts| - 1].reason;
      if Counter(counts, reason) > 0 {
        counts := counts.Minus(One(reason));
      }
    }
  }

  // ---- Accounting against the requests sent ----

  predicate CarriesAttempts(result: Result<seq<Attempt>, Error>) {
    result.Ok? || !(result.error.RateLimited? || result.error.RaisedAsIs?)
  }

  /** What reaches the usage totals: nothing at all when the error carries no attempts. */
  function Reported(result: Result<seq<Attempt>, Error>): Retries {
    match result
    case Ok(attempts) => Count(attempts)
    case Err(error) =>
      if CarriesAttempts(result) && error.attempts != [] then Count(error.attempts[..|error.attempts| - 1]) else NO_RETRIES
  }

  /** Every request after the first is charged to the failure just before it. */
  ghost function Charged(outcomes: Outcomes, n: nat): Retries
    requires AllRetryable(outcomes, n)
  {
    if n == 0 then NO_RETRIES else Charged(outcomes, n - 1).Plus(One(ReasonOf(outcomes(n - 1))))
  }

  lemma {:induction false} ChargedTotal(outcomes: Outcomes, n: nat)
    requires AllRetryable(outcomes, n)
    ensures Charged(outcomes, n).Total() == n
  {
    if n > 0 {
      ChargedTotal(outcomes, n - 1);
    }
  }

  function Slots(outcomes: Outcomes, kind: Outcome, n: nat): set<nat> {
    set i: nat | i < n && outcomes(i) == kind
  }

  lemma SlotsGrow(outcomes: Outcomes, kind: Outcome, n: nat)
    ensures |Slots(outcomes, kind, n + 1)| == |Slots(outcomes, kind, n)| + if outcomes(n) == kind then 1 else 0
  {
    assert Slots(outcomes, kind, n + 1) == Slots(outcomes, kind, n) + if outcomes(n) == kind then {n} else {};
  }

  /** Per reason: how many of the first n requests ended so. */
  function PerReason(outcomes: Outcomes, n: nat): Retries {
    Retries(|Slots(outcomes, TimedOut, n)|, |Slots(outcomes, Degenerate, n)|,
            |Slots(outcomes, Dropped, n)|, |Slots(outcomes, BadStream, n)|)
  }

  lemma PerReasonGrows(outcomes: Outcomes, n: nat)
    requires Retryable(outcomes(n))
    ensures PerReason(outcomes, n + 1) == PerReason(outcomes, n).Plus(One(ReasonOf(outcomes(n))))
  {
    hide Slots;
    SlotsGrow(outcomes, TimedOut, n);
    SlotsGrow(outcomes, Degenerate, n);
    SlotsGrow(outcomes, Dropped, n);
    SlotsGrow(outcomes, BadStream, n);
  }

  lemma NoSlots(outcomes: Outcomes)
    ensures PerReason(outcomes, 0) == NO_RETRIES
  {
    assert forall kind :: Slots(outcomes, kind, 0) == {};
  }

  lemma {:induction false} ChargedPerReason(outcomes: Outcomes, n: nat)
    requires AllRetryable(outcomes, n)
    ensures Charged(outcomes, n) == PerReason(outcomes, n)
  {
    hide PerReason;
    if n == 0 {
      NoSlots(outcomes);
    } else {
      ChargedPerReason(outcomes, n - 1);
      PerReasonGrows(outcomes, n - 1);
    }
  }

  lemma {:induction false} CountRetried(outcomes: Outcomes, policy: Policy, n: nat)
    requires AllRetryable(outcomes, n)
    ensures Count(Retried(outcomes, policy, n)) == Charged(outcomes, n)
  {
    if n > 0 {
      CountRetried(outcomes, policy, n - 1);
      CountLast(Retried(outcomes, policy, n - 1), Attempt(n, ReasonOf(outcomes(n - 1)), Some(Delay(policy, n - 1))));
    }
  }

  /** One request, then one more per retry; the reserved one only after a decode error in the last slot. */
  lemma RequestBudget(outcomes: Outcomes, fallback: Option<FallbackOutcome>, policy: Policy)
    ensures var sent := Expected(outcomes, fallback, policy).sent;
            && 1 <= sent <= policy.maxRetries + 2
            && AllRetryable(outcomes, sent - 1)
            && (sent == policy.maxRetries + 2 <==>
                  fallback.Some? && AllRetryable(outcomes, policy.maxRetries) && outcomes(policy.maxRetries).BadStream?)
            && (sent < policy.maxRetries + 1 ==> !Retryable(outcomes(sent - 1)))
  {
    SlotsBeforeLast(outcomes, 0, policy.maxRetries);
  }

  lemma ReportedWhenEnded(outcome: Outcome, fallback: Option<FallbackOutcome>, before: seq<Attempt>, last: nat)
    ensures var run := Ended(outcome, fallback, before, last);
            CarriesAttempts(run.result) ==>
              Reported(run.result) == if run.sent == last + 1 then Count(before)
                                      else Count(before).Plus(One(StreamDecodeError))
  {
    hide Count;
    if Retryable(outcome) {
      var entry := Attempt(last + 1, ReasonOf(outcome), None);
      DropsLast(before, entry);
      if outcome.BadStream? && fallback.Some? {
        var attempts := before + [entry];
        CountLast(before, entry);
        CountLast(attempts, Attempt(last + 2, NonstreamFallback, None));
        DropsLast(attempts, Attempt(last + 2, NonstreamFallbackFailed, None));
      }
    }
  }

  lemma DropsLast(attempts: seq<Attempt>, last: Attempt)
    ensures (attempts + [last])[..|attempts + [last]| - 1] == attempts
  {
  }

  /** Every retry of a call that reports attempts is counted, under the reason that caused it. */
  lemma ReportedIsCharged(outcomes: Outcomes, fallback: Option<FallbackOutcome>, policy: Policy)
    ensures var run := Expected(outcomes, fallback, policy);
            && run.sent >= 1 && AllRetryable(outcomes, run.sent - 1)
            && (CarriesAttempts(run.result) ==>
                  Reported(run.result) == Charged(outcomes, run.sent - 1) && Reported(run.result).Total() == run.sent - 1)
  {
    hide Reported, Retried, Count, LastSlot, Ended, CarriesAttempts;
    RequestBudget(outcomes, fallback, policy);
    SlotsBeforeLast(outcomes, 0, policy.maxRetries);
    var run := Expected(outcomes, fallback, policy);
    var last := LastSlot(outcomes, 0, policy.maxRetries);
    ChargedTotal(outcomes, run.sent - 1);
    CountRetried(outcomes, policy, last);
    ReportedWhenEnded(outcomes(last), fallback, Retried(outcomes, policy, last), last);
    SentWhenEnded(outcomes(last), fallback, Retried(outcomes, policy, last), last);
  }

  /** What is reported under a reason is the number of requests before the last one that ended so. */
  lemma ReportedPerReason(outcomes: Outcomes, fallback: Option<FallbackOutcome>, policy: Policy)
    ensures var run := Expected(outcomes, fallback, policy);
            && run.sent >= 1
            && (CarriesAttempts(run.result) ==>
                  Reported(run.result) ==
                    Retries(|Slots(outcomes, TimedOut, run.sent - 1)|, |Slots(outcomes, Degenerate, run.sent - 1)|,
                            |Slots(outcomes, Dropped, run.sent - 1)|, |Slots(outcomes, BadStream, run.sent - 1)|))
  {
    ReportedIsCharged(outcomes, fallback, policy);
    ChargedPerReason(outcomes, Expected(outcomes, fallback, policy).sent - 1);
    hide Expected, Reported, Charged, Slots, CarriesAttempts;
  }

  lemma SentWhenEnded(outcome: Outcome, fallback: Option<FallbackOutcome>, before: seq<Attempt>, last: nat)
    ensures var run := Ended(outcome, fallback, before, last);
            run.sent == last + 1 || (run.sent == last + 2 && outcome.BadStream?)
  {
  }

  /** The final request, or the fallback sent after it, raises an error that carries no attempts. */
  predicate RaisesBare(outcome: Outcome, fallback: Option<FallbackOutcome>) {
    || outcome.Throttled? || outcome.Failed?
    || (outcome.BadStream? && fallback.Some?
        && (fallback.value.FallbackThrottled? || fallback.value.FallbackRejected? || fallback.value.FallbackCancelled?))
  }

  lemma CarriesUnlessBare(outcome: Outcome, fallback: Option<FallbackOutcome>, before: seq<Attempt>, last: nat)
    ensures var result := Ended(outcome, fallback, before, last).result;
            if RaisesBare(outcome, fallback) then Reported(result) == NO_RETRIES else CarriesAttempts(result)
  {
    hide Count;
  }

  function LastOutcome(outcomes: Outcomes, policy: Policy): Outcome {
    outcomes(LastSlot(outcomes, 0, policy.maxRetries))
  }

  lemma ReportedUnlessBare(outcomes: Outcomes, fallback: Option<FallbackOutcome>, policy: Policy)
    ensures var result := Expected(outcomes, fallback, policy).result;
            if RaisesBare(LastOutcome(outcomes, policy), fallback) then Reported(result) == NO_RETRIES
            else CarriesAttempts(result)
  {
    hide Reported, Count, Ended, RaisesBare, CarriesAttempts;
    var last := LastSlot(outcomes, 0, policy.maxRetries);
    SlotsBeforeLast(outcomes, 0, policy.maxRetries);
    CarriesUnlessBare(outcomes(last), fallback, Retried(outcomes, policy, last), last);
  }

  /** Retries go unreported exactly when the first request was worth repeating and the last one raises a bare error. */
  lemma RetriesAreLostIff(outcomes: Outcomes, fallback: Option<FallbackOutcome>, policy: Policy)
    ensures var run := Expected(outcomes, fallback, policy);
            Reported(run.result).Total() != run.sent - 1 <==>
              Retryable(outcomes(0)) && RaisesBare(LastOutcome(outcomes, policy), fallback)
  {
    ReportedIsCharged(outcomes, fallback, policy);
    ReportedUnlessBare(outcomes, fallback, policy);
    if RaisesBare(LastOutcome(outcomes, policy), fallback) {
      FirstIsRetried(outcomes, fallback, policy);
    }
    hide Expected, RaisesBare, Reported, CarriesAttempts, Charged, LastOutcome;
  }

  /** More than one request is sent, or a bare error meets no retry at all. */
  lemma FirstIsRetried(outcomes: Outcomes, fallback: Option<FallbackOutcome>, policy: Policy)
    requires RaisesBare(LastOutcome(outcomes, policy), fallback)
    ensures Expected(outcomes, fallback, policy).sent > 1 <==> Retryable(outcomes(0))
  {
    SlotsBeforeLast(outcomes, 0, policy.maxRetries);
    hide Retried;
  }

  /** The failing family, smallest member: a timeout, then throttling; one retry was made, none is reported. */
  lemma ThrottledCallLosesRetries()
    ensures var outcomes: Outcomes := i => if i == 0 then TimedOut else Throttled;
            var run := Expected(outcomes, None, Policy(1, 1000, None));
            run == Run(Err(RateLimited), 2) && Reported(run.result) == NO_RETRIES
  {
    var outcomes: Outcomes := i => if i == 0 then TimedOut else Throttled;
    assert LastSlot(outcomes, 1, 1) == 1;
    assert LastSlot(outcomes, 0, 1) == 1;
  }

  // ---- Pauses ----

  function Pauses(attempts: seq<Attempt>): nat {
    if attempts == [] then 0
    else Pauses(attempts[..|attempts| - 1]) + (var d := attempts[|attempts| - 1].delay; if d.Some? then d.value else 0)
  }

  function PauseSum(policy: Policy, n: nat): int {
    match policy.interval
    case Some(interval) => n * interval
    case None => policy.backoff * (Pow2(n) - 1)
  }

  /** The pauses of n retries add up to a geometric sum, or to n fixed intervals. */
  lemma {:induction false} PausesAddUp(outcomes: Outcomes, policy: Policy, n: nat)
    requires AllRetryable(outcomes, n)
    ensures Pauses(Retried(outcomes, policy, n)) == PauseSum(policy, n)
  {
    if n > 0 {
      PausesAddUp(outcomes, policy, n - 1);
      assert Retried(outcomes, policy, n)[..n - 1] == Retried(outcomes, policy, n - 1);
      PausesStep(policy, n);
    }
  }

  lemma PausesStep(policy: Policy, n: nat)
    requires n > 0
    ensures PauseSum(policy, n) == PauseSum(policy, n - 1) + Delay(policy, n - 1)
  {
  }
}
