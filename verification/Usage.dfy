/** Usage totals: one bucket for everything and one per source, conserved under every event. */
module Usage {
  import opened Wrappers
  import opened Retry

  datatype Tokens = Tokens(cacheRead: int, cacheCreation: int, uncachedInput: int, output: int)

  datatype Counters = Counters(calls: int, tokens: Tokens, retries: Retries) {
    function Plus(other: Counters): Counters {
      Counters(calls + other.calls,
               Tokens(tokens.cacheRead + other.tokens.cacheRead, tokens.cacheCreation + other.tokens.cacheCreation,
                      tokens.uncachedInput + other.tokens.uncachedInput, tokens.output + other.tokens.output),
               retries.Plus(other.retries))
    }
  }

  const NO_TOKENS: Tokens := Tokens(0, 0, 0, 0)
  const NOTHING: Counters := Counters(0, NO_TOKENS, NO_RETRIES)

  class UsageBucket {
    var calls: int
    var cacheRead: int
    var cacheCreation: int
    var uncachedInput: int
    var output: int
    var timeoutRetries: int
    var degenerateRetries: int
    var connectionRetries: int
    var streamDecodeRetries: int

    constructor ()
      ensures Value() == NOTHING
    {
      calls, cacheRead, cacheCreation, uncachedInput, output := 0, 0, 0, 0, 0;
      timeoutRetries, degenerateRetries, connectionRetries, streamDecodeRetries := 0, 0, 0, 0;
    }

    function Value(): Counters
      reads this
    {
      Counters(calls, Tokens(cacheRead, cacheCreation, uncachedInput, output),
               Retries(timeoutRetries, degenerateRetries, connectionRetries, streamDecodeRetries))
    }

    method AddRetries(retries: Retries)
      modifies this
      ensures Value() == old(Value()).Plus(Counters(0, NO_TOKENS, retries))
      ensures calls == old(calls) && cacheRead == old(cacheRead) && cacheCreation == old(cacheCreation)
      ensures uncachedInput == old(uncachedInput) && output == old(output)
      ensures timeoutRetries == old(timeoutRetries) + retries.timeouts
      ensures degenerateRetries == old(degenerateRetries) + retries.degenerates
      ensures connectionRetries == old(connectionRetries) + retries.connections
      ensures streamDecodeRetries == old(streamDecodeRetries) + retries.decodes
    {
      timeoutRetries := timeoutRetries + retries.timeouts;
      degenerateRetries := degenerateRetries + retries.degenerates;
      connectionRetries := connectionRetries + retries.connections;
      streamDecodeRetries := streamDecodeRetries + retries.decodes;
    }

    method Add(tokens: Tokens, retries: Retries)
      modifies this
      ensures Value() == old(Value()).Plus(Counters(1, tokens, retries))
      ensures calls == old(calls) + 1
      ensures cacheRead == old(cacheRead) + tokens.cacheRead && cacheCreation == old(cacheCreation) + tokens.cacheCreation
      ensures uncachedInput == old(uncachedInput) + tokens.uncachedInput && output == old(output) + tokens.output
      ensures timeoutRetries == old(timeoutRetries) + retries.timeouts
      ensures degenerateRetries == old(degenerateRetries) + retries.degenerates
      ensures connectionRetries == old(connectionRetries) + retries.connections
      ensures streamDecodeRetries == old(streamDecodeRetries) + retries.decodes
    {
      calls := calls + 1;
      cacheRead := cacheRead + tokens.cacheRead;
      cacheCreation := cacheCreation + tokens.cacheCreation;
      uncachedInput := uncachedInput + tokens.uncachedInput;
      output := output + tokens.output;
      AddRetries(retries);
    }
  }

  lemma PlusSwaps(a: Counters, b: Counters, c: Counters)
    ensures a.Plus(b).Plus(c) == a.Plus(c).Plus(b)
  {
  }

  lemma PlusTotals(a: Counters, b: Counters)
    ensures a.Plus(b).calls == a.calls + b.calls
    ensures a.Plus(b).retries.Total() == a.retries.Total() + b.retries.Total()
  {
  }

  lemma PlusNothing(a: Counters)
    ensures a.Plus(NOTHING) == a
  {
  }

  lemma PlusAssociates(a: Counters, b: Counters, c: Counters)
    ensures a.Plus(b).Plus(c) == a.Plus(b.Plus(c))
  {
  }

  // ---- Sums over the sources ----

  type Books = map<string, Counters>

  ghost function Sum(books: Books): Counters
    decreases |books|
  {
    if books == map[] then NOTHING
    else
      var source :| source in books;
      Sum(books - {source}).Plus(books[source])
  }

  /** The order in which sources are summed does not matter. */
  lemma {:induction false} SumWithout(books: Books, source: string)
    requires source in books
    ensures Sum(books) == Sum(books - {source}).Plus(books[source])
    decreases |books|
  {
    var first :| first in books && Sum(books) == Sum(books - {first}).Plus(books[first]);
    if first != source {
      SumWithout(books - {first}, source);
      SumWithout(books - {source}, first);
      var rest := books - {first} - {source};
      assert rest == books - {source} - {first};
      PlusSwaps(Sum(rest), books[source], books[first]);
    }
  }

  function Booked(books: Books, source: string): Counters {
    if source in books then books[source] else NOTHING
  }

  function Book(books: Books, source: string, amount: Counters): Books {
    books[source := Booked(books, source).Plus(amount)]
  }

  lemma PlacedThenAdded(books: Books, source: string, amount: Counters)
    ensures var placed := books[source := Booked(books, source)];
            placed[source := placed[source].Plus(amount)] == Book(books, source, amount)
  {
  }

  lemma BookAddsToSum(books: Books, source: string, amount: Counters)
    ensures Sum(Book(books, source, amount)) == Sum(books).Plus(amount)
  {
    var after := Book(books, source, amount);
    SumWithout(after, source);
    assert after - {source} == books - {source};
    if source in books {
      SumWithout(books, source);
      PlusAssociates(Sum(books - {source}), books[source], amount);
    } else {
      assert books - {source} == books;
    }
  }

  // ---- The aggregator ----

  class UsageAggregator {
    const total: UsageBucket
    var bySource: map<string, UsageBucket>

    ghost predicate Separate()
      reads this
    {
      && total !in bySource.Values
      && forall a, b :: a in bySource && b in bySource && a != b ==> bySource[a] != bySource[b]
    }

    ghost function Ledger(): Books
      reads this, bySource.Values
    {
      map source | source in bySource :: bySource[source].Value()
    }

    /** The total is the sum over the sources, counter by counter. */
    ghost predicate Valid()
      reads this, total, bySource.Values
    {
      Separate() && total.Value() == Sum(Ledger())
    }

    constructor ()
      ensures Valid() && fresh(total) && bySource == map[] && Ledger() == map[]
    {
      total := new UsageBucket();
      bySource := map[];
    }

    /** The source's bucket, created empty when it is new. */
    method SetDefault(source: string) returns (bucket: UsageBucket)
      requires Separate()
      modifies this
      ensures Separate() && source in bySource && bucket == bySource[source]
      ensures Ledger() == old(Ledger())[source := Booked(old(Ledger()), source)]
      ensures fresh(bySource.Values - old(bySource.Values)) && unchanged(total)
      ensures total !in bySource.Values
    {
      if source in bySource {
        bucket := bySource[source];
        assert Ledger() == old(Ledger())[source := Booked(old(Ledger()), source)];
      } else {
        bucket := new UsageBucket();
        bySource := bySource[source := bucket];
        assert bySource.Values <= old(bySource.Values) + {bucket};
        assert bySource[source] == bucket;
      }
    }

    lemma OthersAreApart(source: string)
      requires Separate() && source in bySource
      ensures total !in bySource.Values
      ensures forall other :: other in bySource && other != source ==> bySource[other] != bySource[source]
    {
    }

    /** A call that returned: one more call, its tokens and its retries, in the total and in its source. */
    method Add(source: string, tokens: Tokens, retries: Retries)
      requires Valid()
      modifies this, total, bySource.Values
      ensures Valid() && fresh(bySource.Values - old(bySource.Values))
      ensures Ledger() == Book(old(Ledger()), source, Counters(1, tokens, retries))
    {
      hide Sum, Book, Booked, Counters.Plus, UsageBucket.Value, Separate;
      ghost var before := Ledger();
      var bucket := SetDefault(source);
      OthersAreApart(source);
      ghost var placed := Ledger();
      total.Add(tokens, retries);
      assert Ledger() == placed && bucket.Value() == placed[source];
      bucket.Add(tokens, retries);
      BookAddsToSum(before, source, Counters(1, tokens, retries));
      PlacedThenAdded(before, source, Counters(1, tokens, retries));
      assert Ledger() == placed[source := bucket.Value()];
    }

    /** A call that raised: only its retries, and nothing at all when it made none. */
    method AddFailedCallRetries(source: string, retries: Retries)
      requires Valid()
      modifies this, total, bySource.Values
      ensures Valid() && fresh(bySource.Values - old(bySource.Values))
      ensures Ledger() == if retries == NO_RETRIES then old(Ledger())
                          else Book(old(Ledger()), source, Counters(0, NO_TOKENS, retries))
    {
      if retries != NO_RETRIES {
        AddRetriesOf(source, retries);
      }
    }

    method AddRetriesOf(source: string, retries: Retries)
      requires Valid()
      modifies this, total, bySource.Values
      ensures Valid() && fresh(bySource.Values - old(bySource.Values))
      ensures Ledger() == Book(old(Ledger()), source, Counters(0, NO_TOKENS, retries))
    {
      hide Sum, Book, Booked, Counters.Plus, UsageBucket.Value, Separate;
      ghost var before := Ledger();
      var bucket := SetDefault(source);
      OthersAreApart(source);
      ghost var placed := Ledger();
      total.AddRetries(retries);
      assert Ledger() == placed && bucket.Value() == placed[source];
      bucket.AddRetries(retries);
      BookAddsToSum(before, source, Counters(0, NO_TOKENS, retries));
      PlacedThenAdded(before, source, Counters(0, NO_TOKENS, retries));
      assert Ledger() == placed[source := bucket.Value()];
    }
  }

  // ---- Whole runs of model calls ----

  // One model call as accounted: who made it, how it ended, what it cost when it returned.
  datatype Call = Call(source: string, outcomes: Outcomes, fallback: Option<FallbackOutcome>, policy: Policy, tokens: Tokens)

  ghost function RunOf(call: Call): Run {
    Expected(call.outcomes, call.fallback, call.policy)
  }

  ghost function AmountOf(call: Call): Counters {
    if RunOf(call).result.Ok? then Counters(1, call.tokens, Reported(RunOf(call).result))
    else Counters(0, NO_TOKENS, Reported(RunOf(call).result))
  }

  ghost function BookCall(books: Books, call: Call): Books {
    if RunOf(call).result.Err? && Reported(RunOf(call).result) == NO_RETRIES then books
    else Book(books, call.source, AmountOf(call))
  }

  ghost function BookAll(calls: seq<Call>): Books {
    if calls == [] then map[] else BookCall(BookAll(calls[..|calls| - 1]), calls[|calls| - 1])
  }

  ghost function AmountsOf(calls: seq<Call>, source: Option<string>): Counters {
    if calls == [] then NOTHING
    else
      var last, before := calls[|calls| - 1], AmountsOf(calls[..|calls| - 1], source);
      if source == None || source == Some(last.source) then before.Plus(AmountOf(last)) else before
  }

  lemma BookCallSum(books: Books, call: Call)
    ensures Sum(BookCall(books, call)) == Sum(books).Plus(AmountOf(call))
  {
    hide Sum, Reported, Expected, Counters.Plus;
    BookAddsToSum(books, call.source, AmountOf(call));
    PlusNothing(Sum(books));
  }

  lemma BookCallBooks(books: Books, call: Call, source: string)
    ensures Booked(BookCall(books, call), source)
         == if source == call.source then Booked(books, source).Plus(AmountOf(call)) else Booked(books, source)
  {
    hide Reported, Expected, Counters.Plus;
    PlusNothing(Booked(books, call.source));
  }

  /** After any calls, the sum over the sources holds all of them. */
  lemma {:induction false} SumIsConserved(calls: seq<Call>)
    ensures Sum(BookAll(calls)) == AmountsOf(calls, None)
  {
    if calls != [] {
      hide Sum, AmountOf, BookCall, Counters.Plus;
      SumIsConserved(calls[..|calls| - 1]);
      BookCallSum(BookAll(calls[..|calls| - 1]), calls[|calls| - 1]);
    }
  }

  /** And each source holds its own. */
  lemma {:induction false} SourceHoldsItsCalls(calls: seq<Call>, source: string)
    ensures Booked(BookAll(calls), source) == AmountsOf(calls, Some(source))
  {
    if calls != [] {
      hide AmountOf, BookCall, Counters.Plus, Booked;
      SourceHoldsItsCalls(calls[..|calls| - 1], source);
      BookCallBooks(BookAll(calls[..|calls| - 1]), calls[|calls| - 1], source);
    }
  }

  ghost function Returned(call: Call): nat {
    if RunOf(call).result.Ok? then 1 else 0
  }

  /** Requests beyond the first, for a call whose ending carries its attempts. */
  ghost function Extra(call: Call): int {
    if CarriesAttempts(RunOf(call).result) then RunOf(call).sent - 1 else 0
  }

  ghost function ReturnedCalls(calls: seq<Call>): nat {
    if calls == [] then 0 else ReturnedCalls(calls[..|calls| - 1]) + Returned(calls[|calls| - 1])
  }

  ghost function ExtraRequests(calls: seq<Call>): int {
    if calls == [] then 0 else ExtraRequests(calls[..|calls| - 1]) + Extra(calls[|calls| - 1])
  }

  /** The retries in the total are the requests sent beyond the first; failed calls are not calls. */
  lemma {:induction false} TotalsMatchRequests(calls: seq<Call>)
    ensures Sum(BookAll(calls)).retries.Total() == ExtraRequests(calls)
    ensures Sum(BookAll(calls)).calls == ReturnedCalls(calls)
  {
    hide Sum, BookCall, AmountOf, Extra, Returned, Counters.Plus, Retries.Total;
    if calls == [] {
      SumOfNothing();
    } else {
      var before, last := calls[..|calls| - 1], calls[|calls| - 1];
      TotalsMatchRequests(before);
      BookCallSum(BookAll(before), last);
      AmountMatchesRequests(last);
      PlusTotals(Sum(BookAll(before)), AmountOf(last));
    }
  }

  /** The tokens of the calls that returned, each kind on its own. */
  ghost function ReturnedTokens(calls: seq<Call>): Tokens {
    if calls == [] then NO_TOKENS
    else
      var before, last := ReturnedTokens(calls[..|calls| - 1]), calls[|calls| - 1];
      if RunOf(last).result.Err? then before
      else Tokens(before.cacheRead + last.tokens.cacheRead, before.cacheCreation + last.tokens.cacheCreation,
                  before.uncachedInput + last.tokens.uncachedInput, before.output + last.tokens.output)
  }

  lemma AmountTokens(call: Call)
    ensures AmountOf(call).tokens == if RunOf(call).result.Ok? then call.tokens else NO_TOKENS
  {
    hide Expected, Reported;
  }

  lemma PlusTokens(a: Counters, b: Counters)
    ensures a.Plus(b).tokens ==
      Tokens(a.tokens.cacheRead + b.tokens.cacheRead, a.tokens.cacheCreation + b.tokens.cacheCreation,
             a.tokens.uncachedInput + b.tokens.uncachedInput, a.tokens.output + b.tokens.output)
  {
  }

  /** Each kind of token in the total is the sum of that kind over the calls that returned. */
  lemma {:induction false} TokensAreConserved(calls: seq<Call>)
    ensures Sum(BookAll(calls)).tokens == ReturnedTokens(calls)
  {
    hide Sum, BookCall, Counters.Plus, AmountOf, RunOf;
    if calls == [] {
      SumOfNothing();
    } else {
      var before, last := calls[..|calls| - 1], calls[|calls| - 1];
      TokensAreConserved(before);
      BookCallSum(BookAll(before), last);
      AmountTokens(last);
      PlusTokens(Sum(BookAll(before)), AmountOf(last));
    }
  }

  lemma SumOfNothing()
    ensures Sum(map[]) == NOTHING && NOTHING.retries.Total() == 0
  {
  }

  lemma AmountMatchesRequests(call: Call)
    ensures AmountOf(call).retries.Total() == Extra(call) && AmountOf(call).calls == Returned(call)
  {
    ReportedIsCharged(call.outcomes, call.fallback, call.policy);
    hide Expected, Charged, Count;
  }

  /** One call through the retry loop and into the aggregator. */
  method Account(aggregator: UsageAggregator, call: Call)
    requires aggregator.Valid()
    modifies aggregator, aggregator.total, aggregator.bySource.Values
    ensures aggregator.Valid() && fresh(aggregator.bySource.Values - old(aggregator.bySource.Values))
    ensures aggregator.Ledger() == BookCall(old(aggregator.Ledger()), call)
  {
    var result, sent := RequestWithRetries(call.outcomes, call.fallback, call.policy);
    hide Expected, Sum, Book;
    match result {
      case Ok(attempts) => aggregator.Add(call.source, call.tokens, Count(attempts));
      case Err(error) =>
        var retries := NO_RETRIES;
        if CarriesAttempts(result) {
          retries := RetryUsage(error.attempts);
        }
        aggregator.AddFailedCallRetries(call.source, retries);
    }
  }

  /** Runs the calls one after the other. */
  method AccountAll(calls: seq<Call>) returns (aggregator: UsageAggregator)
    ensures aggregator.Valid() && aggregator.Ledger() == BookAll(calls)
  {
    hide BookCall;
    aggregator := new UsageAggregator();
    for i := 0 to |calls|
      invariant aggregator.Valid() && aggregator.Ledger() == BookAll(calls[..i])
      invariant fresh(aggregator) && fresh(aggregator.total) && fresh(aggregator.bySource.Values)
    {
      assert calls[..i + 1][..i] == calls[..i];
      Account(aggregator, calls[i]);
    }
    assert calls[..|calls|] == calls;
  }
}
