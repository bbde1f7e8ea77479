/** Context compaction: a transcript is cut at complete turns and its middle becomes one checkpoint. */
module Compaction {
  import opened Wrappers
  import opened Wire
  import opened Pairing

  // A transcript entry. A canonical record may have no wire form at all.
  datatype Entry =
    | Dict(message: Message)
    | Record(projection: Option<Message>)
    | Summary(content: string, replacedMessageCount: nat)

  type Transcript = seq<Entry>
  type Group = seq<Entry>

  function WireMessage(entry: Entry): Message {
    match entry
    case Dict(message) => message
    case Summary(content, _) => Message(User, Plain(content))
    case Record(Some(message)) => message
    case Record(None) => Message(OtherRole, Plain(""))
  }

  function Wires(entries: Transcript): seq<Message> {
    seq(|entries|, i requires 0 <= i < |entries| => WireMessage(entries[i]))
  }

  predicate Valid(entries: Transcript) {
    WellPaired(Wires(entries))
  }

  /** An assistant entry with calls, directly followed by a user entry with results. */
  predicate StartsPair(entries: Transcript) {
    && 2 <= |entries|
    && WireMessage(entries[0]).role == Assistant && ToolUseIds(WireMessage(entries[0])) != []
    && WireMessage(entries[1]).role == User && ToolResultIds(WireMessage(entries[1])) != []
  }

  function Split(entries: Transcript): seq<Group> {
    if entries == [] then []
    else if StartsPair(entries) then [entries[..2]] + Split(entries[2..])
    else [entries[..1]] + Split(entries[1..])
  }

  function Flatten(groups: seq<Group>): Transcript {
    if groups == [] then [] else groups[0] + Flatten(groups[1..])
  }

  lemma SplitContinues(groups: seq<Group>, messages: Transcript, index: nat)
    requires index < |messages|
    ensures var size := if StartsPair(messages[index..]) then 2 else 1;
            && index + size <= |messages|
            && groups + [messages[index..index + size]] + Split(messages[index + size..])
               == groups + Split(messages[index..])
  {
    var rest := messages[index..];
    var size := if StartsPair(rest) then 2 else 1;
    SplitStep(rest);
    assert rest[..size] == messages[index..index + size] && rest[size..] == messages[index + size..];
    AppendAssociates(groups, [rest[..size]], Split(rest[size..]));
  }

  method SplitMessagePairs(messages: Transcript) returns (groups: seq<Group>)
    ensures groups == Split(messages)
    ensures Flatten(groups) == messages
  {
    groups := [];
    var index := 0;
    while index < |messages|
      invariant index <= |messages|
      invariant groups + Split(messages[index..]) == Split(messages)
    {
      var size := 1;
      if && index + 1 < |messages|
         && WireMessage(messages[index]).role == Assistant
         && ToolUseIds(WireMessage(messages[index])) != []
         && WireMessage(messages[index + 1]).role == User
         && ToolResultIds(WireMessage(messages[index + 1])) != []
      {
        size := 2;
      }
      SplitContinues(groups, messages, index);
      groups := groups + [messages[index..index + size]];
      index := index + size;
    }
    FlattenSplit(messages);
  }

  lemma SplitStep(rest: Transcript)
    requires rest != []
    ensures var size := if StartsPair(rest) then 2 else 1;
            Split(rest) == [rest[..size]] + Split(rest[size..])
  {
  }

  // ---- Splitting and joining ----

  lemma WiresAppend(a: Transcript, b: Transcript)
    ensures Wires(a + b) == Wires(a) + Wires(b)
  {
  }

  lemma FlattenAppend(a: seq<Group>, b: seq<Group>)
    ensures Flatten(a + b) == Flatten(a) + Flatten(b)
  {
    if a == [] {
      assert a + b == b;
    } else {
      assert (a + b)[0] == a[0] && (a + b)[1..] == a[1..] + b;
      FlattenAppend(a[1..], b);
    }
  }

  lemma {:induction false} FlattenSplit(entries: Transcript)
    ensures Flatten(Split(entries)) == entries
  {
    if entries == [] {
    } else {
      var n := if StartsPair(entries) then 2 else 1;
      FlattenSplit(entries[n..]);
      assert Split(entries) == [entries[..n]] + Split(entries[n..]);
      assert entries == entries[..n] + entries[n..];
    }
  }

  /** In a valid transcript the first group is valid alone, and so is what follows it. */
  lemma HeadIsWhole(entries: Transcript)
    requires entries != []
    ensures var n := if StartsPair(entries) then 2 else 1;
            Valid(entries) ==> Valid(entries[..n]) && Valid(entries[n..])
  {
    if Valid(entries) {
      var n := if StartsPair(entries) then 2 else 1;
      var ms := Wires(entries);
      assert entries == entries[..n] + entries[n..];
      WiresAppend(entries[..n], entries[n..]);
      assert PairedAt(ms, 0);
      if 1 < |ms| {
        assert PairedAt(ms, 1);
      }
      var head := Wires(entries[..n]);
      assert head == ms[..n];
      forall i | 0 <= i < n ensures PairedAt(head, i) {
        assert head[i] == ms[i];
      }
      WellPairedCut(head, Wires(entries[n..]));
    }
  }

  /** A transcript is valid exactly when each of its groups is valid on its own. */
  lemma {:induction false} ValidIffGroupsValid(entries: Transcript)
    ensures Valid(entries) <==> forall g :: g in Split(entries) ==> Valid(g)
  {
    if entries == [] {
    } else {
      var n := if StartsPair(entries) then 2 else 1;
      var head, rest := entries[..n], entries[n..];
      ValidIffGroupsValid(rest);
      HeadIsWhole(entries);
      assert entries == head + rest;
      WiresAppend(head, rest);
      if Valid(head) && Valid(rest) {
        WellPairedAppend(Wires(head), Wires(rest));
      }
      assert Split(entries) == [head] + Split(rest);
    }
  }

  /** Nothing that follows a valid transcript turns its first message into a pair. */
  lemma StartsPairBeside(a: Transcript, b: Transcript)
    requires a != [] && Valid(a)
    ensures StartsPair(a + b) <==> StartsPair(a)
  {
    HeadIsWhole(a);
    assert PairedAt(Wires(a), 0);
    assert (a + b)[0] == a[0];
    if |a| == 1 {
      assert ToolUseIds(Wires(a)[0]) == [] || WireMessage(a[0]).role != Assistant;
    } else {
      assert (a + b)[1] == a[1];
    }
  }

  /** Splitting distributes over joining when the left part is valid. */
  lemma {:induction false} SplitAppend(a: Transcript, b: Transcript)
    requires Valid(a)
    ensures Split(a + b) == Split(a) + Split(b)
  {
    if a == [] {
      assert a + b == b;
    } else {
      var n := if StartsPair(a) then 2 else 1;
      HeadIsWhole(a);
      StartsPairBeside(a, b);
      assert (a + b)[..n] == a[..n] && (a + b)[n..] == a[n..] + b;
      hide Valid;
      SplitAppend(a[n..], b);
    }
  }

  /** A complete turn: valid, and never split any further. */
  predicate IsTurn(g: Group) {
    Valid(g) && Split(g) == [g]
  }

  predicate AllTurns(groups: seq<Group>) {
    forall i :: 0 <= i < |groups| ==> IsTurn(groups[i])
  }

  lemma {:induction false} SplitIntoTurns(entries: Transcript)
    requires Valid(entries)
    ensures AllTurns(Split(entries))
  {
    if entries == [] {
    } else {
      var n := if StartsPair(entries) then 2 else 1;
      HeadIsWhole(entries);
      SplitIntoTurns(entries[n..]);
      var head := entries[..n];
      assert head[n..] == [] && head[..n] == head;
      assert StartsPair(head) <==> n == 2;
      assert IsTurn(head);
      assert Split(entries) == [head] + Split(entries[n..]);
    }
  }

  /** Turns survive being glued together: they are found again by splitting. */
  lemma {:induction false} TurnsRoundTrip(groups: seq<Group>)
    requires AllTurns(groups)
    ensures Valid(Flatten(groups)) && Split(Flatten(groups)) == groups
  {
    if groups == [] {
    } else {
      var rest := groups[1..];
      assert AllTurns(rest);
      TurnsRoundTrip(rest);
      assert IsTurn(groups[0]);
      WiresAppend(groups[0], Flatten(rest));
      WellPairedAppend(Wires(groups[0]), Wires(Flatten(rest)));
      SplitAppend(groups[0], Flatten(rest));
      assert groups == [groups[0]] + rest;
    }
  }

  lemma SummaryIsTurn(s: Entry)
    requires s.Summary?
    ensures IsTurn([s])
  {
    var ms := Wires([s]);
    assert PairedAt(ms, 0);
    assert [s][1..] == [] && [s][..1] == [s];
  }

  // ---- Choosing the retained tail ----

  // The serialized size of one group; the estimator itself is not modelled.
  type GroupCost = Group -> nat

  function Tokens(groups: seq<Group>, cost: GroupCost): nat {
    if groups == [] then 0 else cost(groups[0]) + Tokens(groups[1..], cost)
  }

  /** The cost of a list of groups is the sum of their costs. */
  lemma {:induction false} TokensAddUp(a: seq<Group>, b: seq<Group>, cost: GroupCost)
    ensures Tokens(a + b, cost) == Tokens(a, cost) + Tokens(b, cost)
    ensures forall g: Group :: Tokens([g], cost) == cost(g)
  {
    if a == [] {
      assert a + b == b;
    } else {
      TokensAddUp(a[1..], b, cost);
      assert (a + b)[0] == a[0] && (a + b)[1..] == a[1..] + b;
    }
  }

  /** The longest suffix within the budget, except that the newest group always stays. */
  ghost predicate IsCut(groups: seq<Group>, budget: int, cost: GroupCost, k: nat) {
    && k < |groups|
    && (k == |groups| - 1 || Tokens(groups[k..], cost) <= budget)
    && forall j :: 0 <= j < k ==> Tokens(groups[j..], cost) > budget
  }

  function CutIndex(groups: seq<Group>, budget: int, cost: GroupCost): (k: nat)
    ensures k <= |groups| && (groups != [] ==> k < |groups|)
  {
    if |groups| <= 1 then 0
    else
      var k := CutIndex(groups[1..], budget, cost);
      if k == 0 && Tokens(groups, cost) <= budget then 0 else k + 1
  }

  lemma {:induction false} TokensOfSuffix(groups: seq<Group>, cost: GroupCost, i: nat, j: nat)
    requires i <= j <= |groups|
    ensures Tokens(groups[j..], cost) <= Tokens(groups[i..], cost)
    decreases j - i
  {
    if i < j {
      TokensOfSuffix(groups, cost, i + 1, j);
      assert groups[i..][1..] == groups[i + 1..];
    }
  }

  lemma {:induction false} CutIndexIsCut(groups: seq<Group>, budget: int, cost: GroupCost)
    requires groups != []
    ensures IsCut(groups, budget, cost, CutIndex(groups, budget, cost))
  {
    assert groups[0..] == groups;
    if |groups| > 1 {
      var rest := groups[1..];
      CutIndexIsCut(rest, budget, cost);
      var k := CutIndex(rest, budget, cost);
      assert rest[k..] == groups[k + 1..];
      if k == 0 && Tokens(groups, cost) <= budget {
      } else {
        forall j | 0 <= j < k + 1 ensures Tokens(groups[j..], cost) > budget {
          if j > 0 {
            assert groups[j..] == rest[j - 1..];
          } else if k > 0 {
            assert rest[0..] == rest;
            assert Tokens(rest[0..], cost) > budget;
          }
        }
      }
    }
  }

  lemma CutIsUnique(groups: seq<Group>, budget: int, cost: GroupCost, k: nat, k': nat)
    requires IsCut(groups, budget, cost, k) && k' < |groups| && k' != k
    ensures !IsCut(groups, budget, cost, k')
  {
    if k < k' {
      var tokens := Tokens(groups[k..], cost);
      assert IsCut(groups, budget, cost, k') ==> tokens > budget;
    } else {
      assert Tokens(groups[k'..], cost) > budget;
    }
  }

  method SelectGroupsForCompaction(groups: seq<Group>, keepRecentTokens: int, cost: GroupCost)
    returns (selected: Option<(seq<Group>, seq<Group>)>)
    ensures selected.None? <==> groups == [] || CutIndex(groups, keepRecentTokens, cost) == 0
    ensures selected.Some? ==>
      var k := CutIndex(groups, keepRecentTokens, cost);
      selected.value == (groups[..k], groups[k..]) && IsCut(groups, keepRecentTokens, cost, k)
  {
    var retained: seq<Group> := [];
    var retainedTokens := 0;
    var i := |groups|;
    while i > 0
      invariant 0 <= i <= |groups|
      invariant retained == groups[i..] && retainedTokens == Tokens(groups[i..], cost)
      invariant i < |groups| - 1 ==> retainedTokens <= keepRecentTokens
    {
      var groupTokens := cost(groups[i - 1]);
      assert groups[i - 1..][1..] == groups[i..] && groups[i - 1..] == [groups[i - 1]] + groups[i..];
      if retained != [] && retainedTokens + groupTokens > keepRecentTokens {
        break;
      }
      retained := [groups[i - 1]] + retained;
      retainedTokens := retainedTokens + groupTokens;
      i := i - 1;
    }
    if groups != [] {
      forall j | 0 <= j < i ensures Tokens(groups[j..], cost) > keepRecentTokens {
        TokensOfSuffix(groups, cost, j, i - 1);
      }
      assert IsCut(groups, keepRecentTokens, cost, i);
      CutIndexIsCut(groups, keepRecentTokens, cost);
      var k := CutIndex(groups, keepRecentTokens, cost);
      if k != i {
        CutIsUnique(groups, keepRecentTokens, cost, i, k);
      }
    }
    var compacted := groups[..|groups| - |retained|];
    if compacted != [] && retained != [] {
      return Some((compacted, retained));
    }
    return None;
  }

  // ---- One compaction ----

  datatype Trigger = NotForced | CachePressure | OtherReason

  // Everything one call reads from its configuration and environment.
  datatype Request = Request(
    skip: bool,
    trigger: Trigger,
    threshold: nat,
    keepHeadPairs: int,
    keepRecentTokens: int,
    checkpoint: string,
    persisted: bool)

  function KeepHead(request: Request): nat {
    Max(0, request.keepHeadPairs)
  }

  function Take(groups: seq<Group>, n: nat): seq<Group> {
    if n <= |groups| then groups[..n] else groups
  }

  function Drop(groups: seq<Group>, n: nat): seq<Group> {
    if n <= |groups| then groups[n..] else []
  }

  datatype Plan = Plan(pinned: seq<Group>, middle: seq<Group>, tail: seq<Group>)

  /** Which turns are pinned, replaced and retained; None when there is not enough to compact. */
  function PlanFor(messages: Transcript, request: Request, cost: GroupCost): Option<Plan> {
    PlanOf(Split(messages), KeepHead(request), Max(1, request.keepRecentTokens), cost)
  }

  function PlanOf(groups: seq<Group>, h: nat, budget: int, cost: GroupCost): Option<Plan> {
    var rest := Drop(groups, h);
    var k := CutIndex(rest, budget, cost);
    if k == 0 then None else Some(Plan(Take(groups, h), rest[..k], rest[k..]))
  }

  function Assemble(plan: Plan, checkpoint: string): Transcript {
    Flatten(plan.pinned) + [Summary(checkpoint, |Flatten(plan.middle)|)] + Flatten(plan.tail)
  }

  /** What one call returns; every refusal returns the transcript untouched. */
  function Compacted(messages: Transcript, request: Request, cost: GroupCost, estimate: Transcript -> nat): Transcript {
    if request.skip || (estimate(messages) <= request.threshold && request.trigger == NotForced) then messages
    else match PlanFor(messages, request, cost)
      case None => messages
      case Some(plan) =>
        var rebuilt := Assemble(plan, request.checkpoint);
        if || !Valid(rebuilt)
           || !request.persisted
           || (request.trigger == CachePressure && estimate(messages) <= estimate(rebuilt))
        then messages else rebuilt
  }

  lemma CutIndexIs(groups: seq<Group>, budget: int, cost: GroupCost, k: nat)
    requires IsCut(groups, budget, cost, k)
    ensures CutIndex(groups, budget, cost) == k
  {
    CutIndexIsCut(groups, budget, cost);
    if CutIndex(groups, budget, cost) != k {
      CutIsUnique(groups, budget, cost, k, CutIndex(groups, budget, cost));
    }
  }

  lemma PlanAtCut(groups: seq<Group>, h: nat, budget: int, cost: GroupCost, k: nat)
    requires h < |groups| && IsCut(groups[h..], budget, cost, k)
    ensures h + k < |groups|
    ensures PlanOf(groups, h, budget, cost) ==
              if k == 0 then None else Some(Plan(groups[..h], groups[h..h + k], groups[h + k..]))
  {
    CutIndexIs(groups[h..], budget, cost, k);
    assert k < |groups[h..]|;
    hide IsCut, CutIndex;
    var rest := Drop(groups, h);
    assert rest[..k] == groups[h..h + k];
    assert rest[k..] == groups[h + k..];
  }

  /** There is a middle to replace exactly when two turns or more are left and they are over the budget together. */
  lemma PlanNeedsMiddle(groups: seq<Group>, h: nat, budget: int, cost: GroupCost)
    ensures PlanOf(groups, h, budget, cost).Some? <==> h + 1 < |groups| && Tokens(groups[h..], cost) > budget
  {
    var rest := Drop(groups, h);
    if rest != [] {
      CutIndexIsCut(rest, budget, cost);
      assert rest[0..] == rest;
    }
  }

  lemma CompactedByPlan(messages: Transcript, request: Request, cost: GroupCost, estimate: Transcript -> nat)
    ensures var plan := PlanFor(messages, request, cost);
      Compacted(messages, request, cost, estimate) ==
        if && !request.skip
           && (estimate(messages) > request.threshold || request.trigger != NotForced)
           && plan.Some? && Valid(Assemble(plan.value, request.checkpoint)) && request.persisted
           && (request.trigger == CachePressure ==>
                 estimate(Assemble(plan.value, request.checkpoint)) < estimate(messages))
        then Assemble(plan.value, request.checkpoint) else messages
  {
    hide PlanFor, Assemble, Valid;
  }

  lemma PlanForCut(messages: Transcript, request: Request, cost: GroupCost, k: nat)
    requires var groups, h := Split(messages), Max(0, request.keepHeadPairs);
             h < |groups| && IsCut(groups[h..], Max(1, request.keepRecentTokens), cost, k)
    ensures var groups, h := Split(messages), Max(0, request.keepHeadPairs);
            && h + k < |groups|
            && PlanFor(messages, request, cost) ==
                 if k == 0 then None else Some(Plan(groups[..h], groups[h..h + k], groups[h + k..]))
  {
    hide Split, IsCut, PlanOf;
    PlanAtCut(Split(messages), Max(0, request.keepHeadPairs), Max(1, request.keepRecentTokens), cost, k);
  }

  /** One call compacts exactly when all of this holds, and returns the transcript when any of it fails. */
  lemma CompactedIff(messages: Transcript, request: Request, cost: GroupCost, estimate: Transcript -> nat, k: nat)
    requires var groups, h := Split(messages), Max(0, request.keepHeadPairs);
             h < |groups| && IsCut(groups[h..], Max(1, request.keepRecentTokens), cost, k)
    ensures var groups, h := Split(messages), Max(0, request.keepHeadPairs);
      var n := |Flatten(groups[h..h + k])|;
      var rebuilt := Flatten(groups[..h]) + [Summary(request.checkpoint, n)] + Flatten(groups[h + k..]);
      && (0 < k && Valid(messages) ==> Valid(rebuilt))
      && Compacted(messages, request, cost, estimate) ==
           if && !request.skip
              && (estimate(messages) > request.threshold || request.trigger != NotForced)
              && 0 < k && Valid(rebuilt) && request.persisted
              && (request.trigger == CachePressure ==> estimate(rebuilt) < estimate(messages))
           then rebuilt else messages
  {
    PlanForCut(messages, request, cost, k);
    CompactedByPlan(messages, request, cost, estimate);
    if k > 0 && Valid(messages) {
      FinalCheckNeverFires(messages, request, cost);
    }
    hide Split, IsCut, PlanFor, Compacted, Flatten, Valid;
  }

  method Extend(messages: Transcript, groups: seq<Group>) returns (result: Transcript)
    ensures result == messages + Flatten(groups)
  {
    result := messages;
    for i := 0 to |groups|
      invariant result + Flatten(groups[i..]) == messages + Flatten(groups)
    {
      assert groups[i..][1..] == groups[i + 1..];
      result := result + groups[i];
    }
  }

  method ChoosePlan(messages: Transcript, request: Request, cost: GroupCost) returns (plan: Option<Plan>)
    ensures plan == PlanFor(messages, request, cost)
  {
    var groups := SplitMessagePairs(messages);
    var keepHead := Max(0, request.keepHeadPairs);
    var pinned := Take(groups, keepHead);
    var compactable := Drop(groups, keepHead);
    var keepRecent := Max(1, request.keepRecentTokens);
    var selected := SelectGroupsForCompaction(compactable, keepRecent, cost);
    if selected.None? {
      return None;
    }
    return Some(Plan(pinned, selected.value.0, selected.value.1));
  }

  method Join(plan: Plan, checkpoint: string) returns (rebuilt: Transcript, valid: bool)
    ensures rebuilt == Assemble(plan, checkpoint) && valid == Valid(rebuilt)
  {
    rebuilt := Extend([], plan.pinned);
    rebuilt := rebuilt + [Summary(checkpoint, |Flatten(plan.middle)|)];
    rebuilt := Extend(rebuilt, plan.tail);
    var finalError := ValidateToolPairing(Wires(rebuilt));
    valid := finalError.None?;
  }

  /** Compacts when it is over the threshold or told to, there is a middle to replace, and the rest goes well. */
  method CompactMessagesIfNeeded(messages: Transcript, request: Request, cost: GroupCost, estimate: Transcript -> nat)
    returns (result: Transcript)
    ensures result == Compacted(messages, request, cost, estimate)
    ensures result == messages || Valid(result)
    ensures var groups, h := Split(messages), Max(0, request.keepHeadPairs);
      h < |groups| ==> forall k: nat :: IsCut(groups[h..], Max(1, request.keepRecentTokens), cost, k) ==>
        var n := |Flatten(groups[h..h + k])|;
        var rebuilt := Flatten(groups[..h]) + [Summary(request.checkpoint, n)] + Flatten(groups[h + k..]);
        && (0 < k && Valid(messages) ==> Valid(rebuilt))
        && result == if && !request.skip
                        && (estimate(messages) > request.threshold || request.trigger != NotForced)
                        && 0 < k && Valid(rebuilt) && request.persisted
                        && (request.trigger == CachePressure ==> estimate(rebuilt) < estimate(messages))
                     then rebuilt else messages
    ensures |Split(messages)| <= Max(0, request.keepHeadPairs) ==> result == messages
  {
    ghost var groups, h := Split(messages), Max(0, request.keepHeadPairs);
    if h < |groups| {
      forall k: nat | IsCut(groups[h..], Max(1, request.keepRecentTokens), cost, k) {
        CompactedIff(messages, request, cost, estimate, k);
      }
    } else {
      PlanNeedsMiddle(groups, h, Max(1, request.keepRecentTokens), cost);
    }
    hide IsCut, Split, Flatten, Valid, PlanOf;
    if request.skip {
      return messages;
    }
    var estimated := estimate(messages);
    if estimated <= request.threshold && request.trigger == NotForced {
      return messages;
    }
    var plan := ChoosePlan(messages, request, cost);
    if plan.None? {
      return messages;
    }
    var rebuilt, valid := Join(plan.value, request.checkpoint);
    if !valid || !request.persisted {
      return messages;
    }
    if request.trigger == CachePressure && estimated <= estimate(rebuilt) {
      return messages;
    }
    return rebuilt;
  }

  /** Validity of the rebuilt transcript is exactly validity of what was kept of it. */
  lemma RebuiltValidIff(plan: Plan, checkpoint: string)
    ensures Valid(Assemble(plan, checkpoint)) <==> Valid(Flatten(plan.pinned)) && Valid(Flatten(plan.tail))
  {
    var a, b := Flatten(plan.pinned), Flatten(plan.tail);
    var s := Summary(checkpoint, |Flatten(plan.middle)|);
    WiresAppend(a, [s]);
    WiresAppend(a + [s], b);
    assert Wires([s]) == [WireMessage(s)];
    WellPairedAroundWall(Wires(a), WireMessage(s), Wires(b));
  }

  lemma PlanCutsSplit(messages: Transcript, request: Request, cost: GroupCost)
    requires PlanFor(messages, request, cost).Some?
    ensures var plan := PlanFor(messages, request, cost).value;
            && Split(messages) == plan.pinned + plan.middle + plan.tail
            && |plan.pinned| == KeepHead(request) && plan.middle != [] && plan.tail != []
  {
    var groups, h := Split(messages), KeepHead(request);
    var rest := Drop(groups, h);
    assert groups == Take(groups, h) + rest;
    var plan := PlanFor(messages, request, cost).value;
    assert plan.middle + plan.tail == rest;
    assert plan.pinned + plan.middle + plan.tail == plan.pinned + (plan.middle + plan.tail);
  }

  /** On a valid transcript the final pairing check never fires, whatever the budget and costs. */
  lemma FinalCheckNeverFires(messages: Transcript, request: Request, cost: GroupCost)
    requires Valid(messages) && PlanFor(messages, request, cost).Some?
    ensures Valid(Assemble(PlanFor(messages, request, cost).value, request.checkpoint))
  {
    var plan := PlanFor(messages, request, cost).value;
    PlanCutsSplit(messages, request, cost);
    SplitIntoTurns(messages);
    TurnsOfPlan(plan);
    TurnsRoundTrip(plan.pinned);
    TurnsRoundTrip(plan.tail);
    RebuiltValidIff(plan, request.checkpoint);
  }

  lemma TurnsOfPlan(plan: Plan)
    requires AllTurns(plan.pinned + plan.middle + plan.tail)
    ensures AllTurns(plan.pinned) && AllTurns(plan.tail)
  {
    var all := plan.pinned + plan.middle + plan.tail;
    forall i | 0 <= i < |plan.pinned| ensures IsTurn(plan.pinned[i]) {
      assert all[i] == plan.pinned[i];
    }
    var n := |plan.pinned| + |plan.middle|;
    forall i | 0 <= i < |plan.tail| ensures IsTurn(plan.tail[i]) {
      assert all[n + i] == plan.tail[i];
    }
  }

  lemma PlanFlattens(messages: Transcript, request: Request, cost: GroupCost)
    requires PlanFor(messages, request, cost).Some?
    ensures var plan := PlanFor(messages, request, cost).value;
            messages == Flatten(plan.pinned) + Flatten(plan.middle) + Flatten(plan.tail)
  {
    var plan := PlanFor(messages, request, cost).value;
    PlanCutsSplit(messages, request, cost);
    FlattenSplit(messages);
    FlattenAppend(plan.pinned + plan.middle, plan.tail);
    FlattenAppend(plan.pinned, plan.middle);
  }

  /** Nothing is lost or duplicated: one checkpoint stands for exactly the replaced middle. */
  lemma RebuiltConserves(messages: Transcript, request: Request, cost: GroupCost)
    requires PlanFor(messages, request, cost).Some?
    ensures var plan := PlanFor(messages, request, cost).value;
            var replaced := |Flatten(plan.middle)|;
            && messages == Flatten(plan.pinned) + Flatten(plan.middle) + Flatten(plan.tail)
            && 0 < replaced
            && |Assemble(plan, request.checkpoint)| == |messages| - replaced + 1
  {
    var plan := PlanFor(messages, request, cost).value;
    PlanFlattens(messages, request, cost);
    PlanCutsSplit(messages, request, cost);
    SplitNonempty(messages);
    assert plan.middle[0] in Split(messages) by {
      assert Split(messages)[|plan.pinned|] == plan.middle[0];
    }
    assert |Flatten(plan.middle)| == |plan.middle[0]| + |Flatten(plan.middle[1..])|;
  }

  /** The tail is the longest run of newest turns within the budget; the newest always stays. */
  lemma TailIsLongest(messages: Transcript, request: Request, cost: GroupCost)
    requires PlanFor(messages, request, cost).Some?
    ensures var plan := PlanFor(messages, request, cost).value;
            && plan.tail != []
            && IsCut(plan.middle + plan.tail, Max(1, request.keepRecentTokens), cost, |plan.middle|)
  {
    var rest := Drop(Split(messages), KeepHead(request));
    var plan := PlanFor(messages, request, cost).value;
    assert rest == plan.middle + plan.tail;
    CutIndexIsCut(rest, Max(1, request.keepRecentTokens), cost);
  }

  lemma {:induction false} SplitNonempty(entries: Transcript)
    ensures forall g :: g in Split(entries) ==> g != []
  {
    if entries != [] {
      SplitNonempty(entries[if StartsPair(entries) then 2 else 1..]);
    }
  }

  // ---- Runs of appended turns and compactions ----

  datatype Event =
    | Append(turn: Group)
    | Compact(request: Request, cost: GroupCost, estimate: Transcript -> nat)

  predicate LegalEvent(event: Event, h: nat) {
    match event
    case Append(turn) => IsTurn(turn)
    case Compact(request, _, _) => KeepHead(request) == h
  }

  function Apply(messages: Transcript, event: Event): Transcript {
    match event
    case Append(turn) => messages + turn
    case Compact(request, cost, estimate) => Compacted(messages, request, cost, estimate)
  }

  function Run(messages: Transcript, events: seq<Event>): Transcript {
    if events == [] then messages
    else Apply(Run(messages, events[..|events| - 1]), events[|events| - 1])
  }

  /** The transcript that would exist had nothing ever been compacted. */
  function History(turns: seq<Group>, events: seq<Event>): seq<Group> {
    if events == [] then turns
    else
      var before := History(turns, events[..|events| - 1]);
      var last := events[|events| - 1];
      if last.Append? then before + [last.turn] else before
  }

  /** Either untouched, or: the h pinned turns, one checkpoint, and a proper suffix of the history. */
  ghost predicate Shape(messages: Transcript, history: seq<Group>, h: nat) {
    || messages == Flatten(history)
    || exists k: nat, s: Entry :: CutAt(messages, history, h, k, s)
  }

  ghost predicate CutAt(messages: Transcript, history: seq<Group>, h: nat, k: nat, s: Entry) {
    && h < k < |history| && s.Summary?
    && messages == Flatten(history[..h] + [[s]] + history[k..])
  }

  lemma CutTurns(history: seq<Group>, h: nat, k: nat, s: Entry)
    requires AllTurns(history) && h < k < |history| && s.Summary?
    ensures var groups := history[..h] + [[s]] + history[k..];
            Valid(Flatten(groups)) && Split(Flatten(groups)) == groups
  {
    SummaryIsTurn(s);
    TurnsRoundTrip(history[..h] + [[s]] + history[k..]);
  }

  lemma ShapeAfterAppend(messages: Transcript, history: seq<Group>, h: nat, turn: Group)
    requires Shape(messages, history, h)
    ensures Shape(messages + turn, history + [turn], h)
  {
    assert Flatten([turn]) == turn;
    if messages == Flatten(history) {
      FlattenAppend(history, [turn]);
    } else {
      var k: nat, s: Entry :| CutAt(messages, history, h, k, s);
      var groups := history[..h] + [[s]] + history[k..];
      FlattenAppend(groups, [turn]);
      var history' := history + [turn];
      assert history'[..h] + [[s]] + history'[k..] == groups + [turn];
      assert CutAt(messages + turn, history', h, k, s);
    }
  }

  lemma AssembleFlattens(plan: Plan, checkpoint: string)
    ensures var s := Summary(checkpoint, |Flatten(plan.middle)|);
            Assemble(plan, checkpoint) == Flatten(plan.pinned + [[s]] + plan.tail)
  {
    var s := Summary(checkpoint, |Flatten(plan.middle)|);
    FlattenAppend(plan.pinned + [[s]], plan.tail);
    FlattenAppend(plan.pinned, [[s]]);
    assert Flatten([[s]]) == [s];
  }

  lemma CutAgain(plan: Plan, history: seq<Group>, h: nat, k: nat, s: Entry)
    requires h < k < |history| && |plan.pinned| == h && plan.middle != [] && plan.tail != []
    requires plan.pinned + plan.middle + plan.tail == history[..h] + [[s]] + history[k..]
    ensures plan.pinned == history[..h]
    ensures k + |plan.middle| - 1 < |history| && plan.tail == history[k + |plan.middle| - 1..]
  {
    var before := history[..h] + [[s]] + history[k..];
    assert plan.pinned == before[..h] && plan.tail == before[h + |plan.middle|..];
    assert |before| == h + 1 + |history| - k;
  }

  lemma ShapeAfterRebuild(messages: Transcript, history: seq<Group>, request: Request, cost: GroupCost)
    requires AllTurns(history) && Shape(messages, history, KeepHead(request))
    requires PlanFor(messages, request, cost).Some?
    ensures Shape(Assemble(PlanFor(messages, request, cost).value, request.checkpoint), history, KeepHead(request))
  {
    var h := KeepHead(request);
    var plan := PlanFor(messages, request, cost).value;
    PlanCutsSplit(messages, request, cost);
    AssembleFlattens(plan, request.checkpoint);
    ShapeOfPlan(messages, history, h, plan, request.checkpoint);
  }

  lemma ShapeOfPlan(messages: Transcript, history: seq<Group>, h: nat, plan: Plan, checkpoint: string)
    requires AllTurns(history) && Shape(messages, history, h)
    requires Split(messages) == plan.pinned + plan.middle + plan.tail
    requires |plan.pinned| == h && plan.middle != [] && plan.tail != []
    requires var s := Summary(checkpoint, |Flatten(plan.middle)|);
             Assemble(plan, checkpoint) == Flatten(plan.pinned + [[s]] + plan.tail)
    ensures Shape(Assemble(plan, checkpoint), history, h)
  {
    var s := Summary(checkpoint, |Flatten(plan.middle)|);
    if messages == Flatten(history) {
      TurnsRoundTrip(history);
      var k := h + |plan.middle|;
      assert plan.pinned == history[..h] && plan.tail == history[k..];
      assert CutAt(Assemble(plan, checkpoint), history, h, k, s);
    } else {
      var k: nat, s0: Entry :| CutAt(messages, history, h, k, s0);
      CutTurns(history, h, k, s0);
      CutAgain(plan, history, h, k, s0);
      assert CutAt(Assemble(plan, checkpoint), history, h, k + |plan.middle| - 1, s);
    }
  }

  /** Over every run: validity holds, the head never changes, and the tail is a suffix of the true history. */
  lemma {:induction false} RunKeepsShape(turns: seq<Group>, events: seq<Event>, h: nat)
    requires AllTurns(turns)
    requires forall e :: e in events ==> LegalEvent(e, h)
    ensures AllTurns(History(turns, events))
    ensures Shape(Run(Flatten(turns), events), History(turns, events), h)
    ensures Valid(Run(Flatten(turns), events))
  {
    if events == [] {
      TurnsRoundTrip(turns);
    } else {
      var before, last := events[..|events| - 1], events[|events| - 1];
      RunKeepsShape(turns, before, h);
      var messages, history := Run(Flatten(turns), before), History(turns, before);
      assert LegalEvent(last, h);
      match last
      case Append(turn) =>
        ShapeAfterAppend(messages, history, h, turn);
        WiresAppend(messages, turn);
        WellPairedAppend(Wires(messages), Wires(turn));
      case Compact(request, cost, estimate) =>
        if PlanFor(messages, request, cost).Some? {
          FinalCheckNeverFires(messages, request, cost);
          ShapeAfterRebuild(messages, history, request, cost);
        }
    }
  }

  function Summaries(entries: Transcript): nat {
    if entries == [] then 0 else (if entries[0].Summary? then 1 else 0) + Summaries(entries[1..])
  }

  lemma SummariesAppend(a: Transcript, b: Transcript)
    ensures Summaries(a + b) == Summaries(a) + Summaries(b)
  {
    if a == [] {
      assert a + b == b;
    } else {
      assert (a + b)[1..] == a[1..] + b;
      SummariesAppend(a[1..], b);
    }
  }

  lemma GroupSummaries(a: seq<Group>, b: seq<Group>)
    ensures Summaries(Flatten(a + b)) == Summaries(Flatten(a)) + Summaries(Flatten(b))
  {
    FlattenAppend(a, b);
    SummariesAppend(Flatten(a), Flatten(b));
  }

  lemma SummariesOfCut(history: seq<Group>, h: nat, k: nat, s: Entry)
    requires h < k < |history| && s.Summary? && Summaries(Flatten(history)) == 0
    ensures Summaries(Flatten(history[..h] + [[s]] + history[k..])) == 1
  {
    assert history == history[..h] + history[h..] && history == history[..k] + history[k..];
    GroupSummaries(history[..h], history[h..]);
    GroupSummaries(history[..k], history[k..]);
    GroupSummaries(history[..h] + [[s]], history[k..]);
    GroupSummaries(history[..h], [[s]]);
    assert Flatten([[s]]) == [s];
  }

  /** A history without checkpoints yields at most one, and it sits right after the pinned turns. */
  lemma AtMostOneSummary(turns: seq<Group>, events: seq<Event>, h: nat)
    requires AllTurns(turns)
    requires forall e :: e in events ==> LegalEvent(e, h)
    requires Summaries(Flatten(History(turns, events))) == 0
    ensures var result := Run(Flatten(turns), events);
            var history := History(turns, events);
            && Summaries(result) <= 1
            && (Summaries(result) == 1 ==>
                 && h < |Split(result)| && h < |history|
                 && Split(result)[..h] == history[..h]
                 && |Split(result)[h]| == 1 && Split(result)[h][0].Summary?)
  {
    RunKeepsShape(turns, events, h);
    var result, history := Run(Flatten(turns), events), History(turns, events);
    if result != Flatten(history) {
      var k: nat, s: Entry :| CutAt(result, history, h, k, s);
      CutTurns(history, h, k, s);
      SummariesOfCut(history, h, k, s);
    }
  }
}
