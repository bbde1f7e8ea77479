/** Encoding neutral history for the Chat API, where every result is a message of its own. */
module ChatCodec {
  import opened Wrappers
  import opened Wire
  import opened Neutral
  import opened Strings
  import AnthropicCodec

  datatype ChatPart = ChatText(text: string) | ChatImage(url: string)

  datatype ChatContent = PlainContent(text: string) | PartContent(parts: seq<ChatPart>)

  // Chat has no error flag: an error result is wrapped in a small envelope around its text.
  datatype ToolText = Bare(text: string) | ErrorEnvelope(text: string)

  datatype ChatCall = ChatCall(id: string, name: string, arguments: Json)

  datatype ChatMessage =
    | ChatUser(content: ChatContent)
    | ChatAssistant(text: Option<string>, calls: seq<ChatCall>, reasoning: Option<string>, encrypted: Option<string>)
    | ChatTool(callId: string, output: ToolText)

  datatype ChatError = RedactedThinkingUnsupported | SeveralOpaqueBlocks | OpaqueOnlyTurn

  type Encoded = Result<seq<ChatMessage>, ChatError>

  function EncodePart(part: Part): ChatPart {
    match part
    case TextPart(text) => ChatText(text)
    case DataImage(mediaType, data) => ChatImage("data:" + mediaType + ";base64," + data)
    case UrlImage(_, url) => ChatImage(url)
  }

  function EncodeParts(parts: seq<Part>): seq<ChatPart> {
    if parts == [] then [] else [EncodePart(parts[0])] + EncodeParts(parts[1..])
  }

  function EncodeInput(input: Input): ChatContent {
    match input
    case PlainInput(text) => PlainContent(text)
    case Parts(parts) => PartContent(EncodeParts(parts))
  }

  function TextsOf(parts: seq<Part>): seq<string> {
    if parts == [] then []
    else if parts[0].TextPart? then [parts[0].text] + TextsOf(parts[1..])
    else TextsOf(parts[1..])
  }

  function ResultText(input: Input): string {
    match input
    case PlainInput(text) => text
    case Parts(parts) => Join(TextsOf(parts))
  }

  function EncodeResult(turn: Turn): ChatMessage
    requires turn.ResultTurn?
  {
    var text := ResultText(turn.input);
    ChatTool(turn.callId, if turn.isError then ErrorEnvelope(text) else Bare(text))
  }

  /** Chat always moves a result's images out, under the same caption. */
  function Deferred(turn: Turn): seq<ChatPart>
    requires turn.ResultTurn?
  {
    EncodeParts(AnthropicCodec.Deferred(turn, AnthropicCodec.AsUser))
  }

  function EncodeResults(batch: History): seq<ChatMessage>
    requires AllResults(batch)
  {
    if batch == [] then [] else [EncodeResult(batch[0])] + EncodeResults(batch[1..])
  }

  function DeferredParts(batch: History): seq<ChatPart>
    requires AllResults(batch)
  {
    if batch == [] then [] else Deferred(batch[0]) + DeferredParts(batch[1..])
  }

  function TextOf(items: seq<Item>): string {
    if items == [] then ""
    else if items[0].TextItem? then items[0].text + TextOf(items[1..])
    else TextOf(items[1..])
  }

  function CallsOf(items: seq<Item>): seq<ChatCall> {
    if items == [] then []
    else if items[0].CallItem? && !items[0].partial
    then [ChatCall(items[0].id, items[0].name, items[0].arguments)] + CallsOf(items[1..])
    else CallsOf(items[1..])
  }

  function ReasoningOf(items: seq<Item>): string {
    if items == [] then ""
    else if items[0].ThinkingItem? && !items[0].redacted then items[0].thinking + ReasoningOf(items[1..])
    else ReasoningOf(items[1..])
  }

  function OpaqueOf(items: seq<Item>): seq<string> {
    if items == [] then []
    else if items[0].ThinkingItem? && !items[0].redacted && items[0].encrypted.Some?
    then [items[0].encrypted.value] + OpaqueOf(items[1..])
    else OpaqueOf(items[1..])
  }

  predicate HasRedacted(items: seq<Item>) {
    exists i :: 0 <= i < |items| && items[i].ThinkingItem? && items[i].redacted
  }

  /** One assistant turn: an error, nothing at all, or one message. */
  function EncodeAssistant(items: seq<Item>): Result<Option<ChatMessage>, ChatError> {
    var text, calls, reasoning, blobs := TextOf(items), CallsOf(items), ReasoningOf(items), OpaqueOf(items);
    if HasRedacted(items) then Err(RedactedThinkingUnsupported)
    else if |blobs| > 1 then Err(SeveralOpaqueBlocks)
    else
      var blob := if blobs == [] then None else Some(blobs[0]);
      if text == "" && calls == [] && reasoning != "" then
        Ok(Some(ChatAssistant(Some(reasoning), [], None, blob)))
      else if text == "" && calls == [] && blobs != [] then Err(OpaqueOnlyTurn)
      else if text == "" && calls == [] then Ok(None)
      else Ok(Some(ChatAssistant(NonEmpty(text), calls, NonEmpty(reasoning), blob)))
  }

  /** A turn that leaves no trace on the wire. */
  predicate Invisible(turn: Turn) {
    turn.AssistantTurn? && EncodeAssistant(turn.items) == Ok(None)
  }

  function EncodeTurn(turn: Turn): Encoded
    requires !turn.ResultTurn?
  {
    match turn
    case UserTurn(input) => Ok([ChatUser(EncodeInput(input))])
    case AssistantTurn(items) =>
      match EncodeAssistant(items)
      case Err(e) => Err(e)
      case Ok(None) => Ok([])
      case Ok(Some(m)) => Ok([m])
  }

  function ImageMessage(images: seq<ChatPart>): seq<ChatMessage> {
    if images == [] then [] else [ChatUser(PartContent(images))]
  }

  function Then(a: Encoded, b: Encoded): Encoded {
    if a.Err? then a else if b.Err? then b else Ok(a.value + b.value)
  }

  /** Reference encoding, batch by batch; the leftmost unsupported turn decides the error. */
  function Encode(turns: History): Encoded
    decreases |turns|
  {
    if turns == [] then Ok([])
    else if turns[0].ResultTurn? then
      var n := RunLength(turns);
      Then(Ok(EncodeResults(turns[..n]) + ImageMessage(DeferredParts(turns[..n]))), Encode(turns[n..]))
    else Then(EncodeTurn(turns[0]), Encode(turns[1..]))
  }

  /** The reference encoding of what is left, given the images still waiting. */
  ghost function Outstanding(images: seq<ChatPart>, rest: History): Encoded {
    var n := RunLength(rest);
    Then(Ok(EncodeResults(rest[..n]) + ImageMessage(images + DeferredParts(rest[..n]))), Encode(rest[n..]))
  }

  lemma ThenAssociates(a: Encoded, b: Encoded, c: Encoded)
    ensures Then(a, Then(b, c)) == Then(Then(a, b), c)
  {
    if a.Ok? && b.Ok? && c.Ok? {
      AppendAssociates(a.value, b.value, c.value);
    }
  }

  lemma ThenNothing(a: Encoded)
    ensures Then(Ok([]), a) == a && Then(a, Ok([])) == a
  {
    if a.Ok? {
      assert [] + a.value == a.value && a.value + [] == a.value;
    }
  }

  lemma OutstandingNothing(rest: History)
    ensures Outstanding([], rest) == Encode(rest)
  {
    var n := RunLength(rest);
    assert [] + DeferredParts(rest[..n]) == DeferredParts(rest[..n]);
    if n == 0 {
      assert rest[0..] == rest;
      assert EncodeResults(rest[..n]) + ImageMessage([]) == [];
      ThenNothing(Encode(rest));
    }
  }

  lemma OutstandingResult(images: seq<ChatPart>, rest: History)
    requires rest != [] && rest[0].ResultTurn?
    ensures Outstanding(images, rest) == Then(Ok([EncodeResult(rest[0])]), Outstanding(images + Deferred(rest[0]), rest[1..]))
  {
    AnthropicCodec.RunStep(rest);
    var batch := rest[1..][..RunLength(rest[1..])];
    var after := Encode(rest[RunLength(rest)..]);
    AppendAssociates(images, Deferred(rest[0]), DeferredParts(batch));
    var moved := ImageMessage(images + Deferred(rest[0]) + DeferredParts(batch));
    ThenAssociates(Ok([EncodeResult(rest[0])]), Ok(EncodeResults(batch) + moved), after);
    AppendAssociates([EncodeResult(rest[0])], EncodeResults(batch), moved);
  }

  lemma OutstandingTurn(images: seq<ChatPart>, rest: History)
    requires rest != [] && !rest[0].ResultTurn?
    ensures Outstanding(images, rest)
         == Then(Then(Ok(ImageMessage(images)), EncodeTurn(rest[0])), Outstanding([], rest[1..]))
  {
    OutstandingNothing(rest[1..]);
    assert RunLength(rest) == 0 && rest[0..] == rest && rest[..0] == [];
    assert images + [] == images && [] + ImageMessage(images) == ImageMessage(images);
    ThenAssociates(Ok(ImageMessage(images)), EncodeTurn(rest[0]), Encode(rest[1..]));
  }

  /** One pass; only images wait, and they are flushed before every other turn and at the end. */
  method EncodeMessages(turns: History) returns (encoded: Encoded)
    ensures encoded == Encode(turns)
  {
    var result: seq<ChatMessage> := [];
    var pendingImages: seq<ChatPart> := [];
    assert turns[0..] == turns;
    OutstandingNothing(turns);
    ThenNothing(Encode(turns));
    for i := 0 to |turns|
      invariant Then(Ok(result), Outstanding(pendingImages, turns[i..])) == Encode(turns)
    {
      ghost var rest := turns[i..];
      assert rest[0] == turns[i] && rest[1..] == turns[i + 1..];
      if turns[i].ResultTurn? {
        OutstandingResult(pendingImages, rest);
        pendingImages := pendingImages + Deferred(turns[i]);
        ThenAssociates(Ok(result), Ok([EncodeResult(turns[i])]), Outstanding(pendingImages, rest[1..]));
        result := result + [EncodeResult(turns[i])];
      } else {
        OutstandingTurn(pendingImages, rest);
        var one := EncodeTurn(turns[i]);
        if one.Err? {
          return one;
        }
        var step := ImageMessage(pendingImages) + one.value;
        ThenAssociates(Ok(result), Ok(step), Outstanding([], rest[1..]));
        result := result + step;
        pendingImages := [];
      }
    }
    assert turns[|turns|..] == [];
    assert Outstanding(pendingImages, []) == Ok(ImageMessage(pendingImages)) by {
      assert pendingImages + [] == pendingImages;
      assert [] + ImageMessage(pendingImages) == ImageMessage(pendingImages);
      ThenNothing(Ok(ImageMessage(pendingImages)));
    }
    return Ok(result + ImageMessage(pendingImages));
  }

  // ---- Tool messages on the wire ----

  function LeadingTools(wire: seq<ChatMessage>): (n: nat)
    ensures n <= |wire|
    ensures forall i :: 0 <= i < n ==> wire[i].ChatTool?
  {
    if wire == [] || !wire[0].ChatTool? then 0 else 1 + LeadingTools(wire[1..])
  }

  function ToolIds(tools: seq<ChatMessage>): seq<string>
    requires forall i :: 0 <= i < |tools| ==> tools[i].ChatTool?
  {
    if tools == [] then [] else [tools[0].callId] + ToolIds(tools[1..])
  }

  function IdsOfCalls(calls: seq<ChatCall>): seq<string> {
    if calls == [] then [] else [calls[0].id] + IdsOfCalls(calls[1..])
  }

  predicate Matched(calls: seq<string>, answers: seq<string>) {
    && "" !in calls && "" !in answers && Distinct(calls)
    && (if calls == [] then answers == [] else IdsMatch(calls, answers))
  }

  /** Every tool message lies in one unbroken run right after the message making exactly those calls. */
  predicate ToolsFollowCalls(wire: seq<ChatMessage>) {
    if wire == [] then true
    else match wire[0]
      case ChatUser(_) => ToolsFollowCalls(wire[1..])
      case ChatTool(_, _) => false
      case ChatAssistant(_, calls, _, _) =>
        var n := LeadingTools(wire[1..]);
        && Matched(IdsOfCalls(calls), ToolIds(wire[1..][..n]))
        && ToolsFollowCalls(wire[1..][n..])
  }

  lemma {:induction false} CallsCarryIds(items: seq<Item>)
    ensures IdsOfCalls(CallsOf(items)) == CallIds(items)
  {
    if items != [] {
      CallsCarryIds(items[1..]);
      if items[0].CallItem? && !items[0].partial {
        assert CallsOf(items)[0].id == items[0].id && CallsOf(items)[1..] == CallsOf(items[1..]);
      }
    }
  }

  lemma {:induction false} BatchIsLeadingRun(batch: History, after: seq<ChatMessage>)
    requires AllResults(batch) && (after != [] ==> !after[0].ChatTool?)
    ensures var wire := EncodeResults(batch) + after;
            var n := LeadingTools(wire);
            n == |batch| && ToolIds(wire[..n]) == AnsweredIds(batch) && wire[n..] == after
    ensures |EncodeResults(batch)| == |batch|
  {
    var wire := EncodeResults(batch) + after;
    if batch == [] {
      assert wire == after;
    } else {
      BatchIsLeadingRun(batch[1..], after);
      assert wire[0] == EncodeResult(batch[0]);
      assert wire[1..] == EncodeResults(batch[1..]) + after;
      var n := LeadingTools(wire[1..]);
      assert wire[..n + 1][0] == wire[0] && wire[..n + 1][1..] == wire[1..][..n];
      assert wire[n + 1..] == wire[1..][n..];
    }
  }

  lemma EncodedHeadIsNoTool(turns: History)
    requires Encode(turns).Ok? && turns != [] && !turns[0].ResultTurn? && !Invisible(turns[0])
    ensures Encode(turns).value != [] && !Encode(turns).value[0].ChatTool?
  {
  }

  /** The first visible turn of an answered history is never a result. */
  lemma {:induction false} AnsweredHeadIsNoTool(turns: History)
    requires Encode(turns).Ok? && Answered(turns)
    ensures Encode(turns).value != [] ==> !Encode(turns).value[0].ChatTool?
  {
    if turns != [] {
      if Invisible(turns[0]) {
        InvisibleAnswersNothing(turns);
        AnsweredHeadIsNoTool(turns[1..]);
        ThenNothing(Encode(turns[1..]));
      } else {
        EncodedHeadIsNoTool(turns);
      }
    }
  }

  lemma {:induction false} InvisibleHasNoCalls(items: seq<Item>)
    requires EncodeAssistant(items) == Ok(None)
    ensures CallIds(items) == []
  {
    CallsCarryIds(items);
  }

  lemma InvisibleAnswersNothing(turns: History)
    requires turns != [] && Invisible(turns[0]) && Answered(turns)
    ensures RunLength(turns[1..]) == 0 && Answered(turns[1..])
  {
    InvisibleHasNoCalls(turns[0].items);
    var tail := turns[1..];
    var n := RunLength(tail);
    assert AnsweredIds(tail[..n]) == [];
    assert tail[0..] == tail;
  }

  predicate AllVisible(turns: History) {
    forall t :: t in turns ==> !Invisible(t)
  }

  /** A visible assistant turn, the run after it, and whatever follows. */
  lemma AssistantUnit(items: seq<Item>, batch: History, after: seq<ChatMessage>)
    requires EncodeAssistant(items).Ok? && EncodeAssistant(items).value.Some?
    requires AllResults(batch) && (after != [] ==> !after[0].ChatTool?)
    ensures ToolsFollowCalls([EncodeAssistant(items).value.value] + (EncodeResults(batch) + after)) <==>
      Matched(CallIds(items), AnsweredIds(batch)) && ToolsFollowCalls(after)
  {
    CallsCarryIds(items);
    BatchIsLeadingRun(batch, after);
    var head := EncodeAssistant(items).value.value;
    var wire := [head] + (EncodeResults(batch) + after);
    assert wire[0] == head && wire[1..] == EncodeResults(batch) + after;
    assert IdsOfCalls(head.calls) == CallIds(items);
  }

  lemma ImagesThenRest(images: seq<ChatPart>, rest: seq<ChatMessage>)
    ensures ToolsFollowCalls(ImageMessage(images) + rest) <==> ToolsFollowCalls(rest)
    ensures images != [] ==> (ImageMessage(images) + rest)[0].ChatUser?
  {
    if images == [] {
      assert ImageMessage(images) + rest == rest;
    } else {
      assert (ImageMessage(images) + rest)[1..] == rest;
    }
  }

  /** What follows an assistant turn on the wire: its run, the moved images, the rest. */
  lemma EncodedTail(tail: History)
    requires Encode(tail).Ok?
    ensures var n := RunLength(tail);
            && Encode(tail[n..]).Ok?
            && Encode(tail).value
               == EncodeResults(tail[..n]) + (ImageMessage(DeferredParts(tail[..n])) + Encode(tail[n..]).value)
  {
    var n := RunLength(tail);
    if n == 0 {
      assert tail[0..] == tail;
      var rest := Encode(tail).value;
      assert EncodeResults([]) + (ImageMessage([]) + rest) == rest;
    } else {
      AppendAssociates(EncodeResults(tail[..n]), ImageMessage(DeferredParts(tail[..n])), Encode(tail[n..]).value);
    }
  }

  lemma TailHeadIsNoTool(images: seq<ChatPart>, rest: History)
    requires Encode(rest).Ok? && (rest != [] ==> !rest[0].ResultTurn?)
    requires AllVisible(rest) || Answered(rest)
    ensures var wire := ImageMessage(images) + Encode(rest).value;
            wire != [] ==> !wire[0].ChatTool?
  {
    ImagesThenRest(images, Encode(rest).value);
    if images == [] {
      assert ImageMessage(images) + Encode(rest).value == Encode(rest).value;
      if Answered(rest) {
        AnsweredHeadIsNoTool(rest);
      } else if rest != [] {
        assert rest[0] in rest;
        EncodedHeadIsNoTool(rest);
      }
    }
  }

  lemma AssistantCase(items: seq<Item>, tail: History)
    requires EncodeAssistant(items).Ok? && EncodeAssistant(items).value.Some? && Encode(tail).Ok?
    requires AllVisible(tail) || Answered(tail[RunLength(tail)..])
    ensures var n := RunLength(tail);
            ToolsFollowCalls([EncodeAssistant(items).value.value] + Encode(tail).value) <==>
              && Matched(CallIds(items), AnsweredIds(tail[..n]))
              && ToolsFollowCalls(Encode(tail[n..]).value)
  {
    var n := RunLength(tail);
    EncodedTail(tail);
    TailHeadIsNoTool(DeferredParts(tail[..n]), tail[n..]);
    AssistantUnit(items, tail[..n], ImageMessage(DeferredParts(tail[..n])) + Encode(tail[n..]).value);
    ImagesThenRest(DeferredParts(tail[..n]), Encode(tail[n..]).value);
  }

  /** An answered history keeps its runs unbroken; with no invisible turn the converse holds too. */
  lemma {:induction false} ToolsFollowCallsIfAnswered(turns: History)
    requires Encode(turns).Ok?
    ensures Answered(turns) ==> ToolsFollowCalls(Encode(turns).value)
    ensures AllVisible(turns) && ToolsFollowCalls(Encode(turns).value) ==> Answered(turns)
    decreases |turns|
  {
    if turns != [] {
      var tail := turns[1..];
      match turns[0]
      case UserTurn(_) =>
        ToolsFollowCallsIfAnswered(tail);
        assert Encode(turns).value[1..] == Encode(tail).value;
      case ResultTurn(_, _, _, _) =>
        var n := RunLength(turns);
        assert Encode(turns).value[0] == EncodeResult(turns[0]);
      case AssistantTurn(items) =>
        if Invisible(turns[0]) {
          assert turns[0] in turns && !AllVisible(turns);
          if Answered(turns) {
            InvisibleAnswersNothing(turns);
            ToolsFollowCallsIfAnswered(tail);
            ThenNothing(Encode(tail));
          }
        } else {
          var n := RunLength(tail);
          EncodedTail(tail);
          ToolsFollowCallsIfAnswered(tail[n..]);
          if AllVisible(turns) || Answered(turns) {
            AssistantCase(items, tail);
          }
        }
    }
  }

  // ---- The exact condition ----

  function Visible(turns: History): History {
    if turns == [] then []
    else if Invisible(turns[0]) then Visible(turns[1..])
    else [turns[0]] + Visible(turns[1..])
  }

  predicate ResultComesNext(turns: History) {
    Visible(turns) != [] && Visible(turns)[0].ResultTurn?
  }

  /** Somewhere a run of results with images to move out is cut by invisible turns and then goes on. */
  predicate SplitsImages(turns: History)
    decreases |turns|
  {
    if turns == [] then false
    else if turns[0].ResultTurn? then
      var n := RunLength(turns);
      (DeferredParts(turns[..n]) != [] && ResultComesNext(turns[n..])) || SplitsImages(turns[n..])
    else SplitsImages(turns[1..])
  }

  lemma {:induction false} VisibleIsAllVisible(turns: History)
    ensures AllVisible(Visible(turns))
  {
    if turns != [] {
      VisibleIsAllVisible(turns[1..]);
    }
  }

  lemma {:induction false} VisibleBatch(batch: History, rest: History)
    requires AllResults(batch)
    ensures Visible(batch + rest) == batch + Visible(rest)
  {
    if batch == [] {
      assert batch + rest == rest && batch + Visible(rest) == Visible(rest);
    } else {
      VisibleBatch(batch[1..], rest);
      assert (batch + rest)[0] == batch[0] && (batch + rest)[1..] == batch[1..] + rest;
      assert batch + Visible(rest) == [batch[0]] + (batch[1..] + Visible(rest));
    }
  }

  lemma {:induction false} RunOfBatch(batch: History, rest: History)
    requires AllResults(batch)
    ensures RunLength(batch + rest) == |batch| + RunLength(rest)
  {
    if batch == [] {
      assert batch + rest == rest;
    } else {
      RunOfBatch(batch[1..], rest);
      assert (batch + rest)[0] == batch[0] && (batch + rest)[1..] == batch[1..] + rest;
    }
  }

  lemma {:induction false} ResultsJoin(a: History, b: History)
    requires AllResults(a) && AllResults(b)
    ensures AllResults(a + b) && EncodeResults(a + b) == EncodeResults(a) + EncodeResults(b)
  {
    hide EncodeResult;
    if a == [] {
      assert a + b == b;
    } else {
      ResultsJoin(a[1..], b);
      assert (a + b)[0] == a[0] && (a + b)[1..] == a[1..] + b;
    }
  }

  lemma {:induction false} ImagesJoin(a: History, b: History)
    requires AllResults(a) && AllResults(b)
    ensures AllResults(a + b) && DeferredParts(a + b) == DeferredParts(a) + DeferredParts(b)
  {
    hide Deferred;
    if a == [] {
      assert a + b == b;
    } else {
      ImagesJoin(a[1..], b);
      assert (a + b)[0] == a[0] && (a + b)[1..] == a[1..] + b;
      AppendAssociates(Deferred(a[0]), DeferredParts(a[1..]), DeferredParts(b));
    }
  }

  lemma EncodeRun(run: History, rest: History)
    requires AllResults(run) && run != [] && (rest == [] || !rest[0].ResultTurn?)
    ensures Encode(run + rest) == Then(Ok(EncodeResults(run) + ImageMessage(DeferredParts(run))), Encode(rest))
  {
    var all := run + rest;
    RunOfBatch(run, rest);
    assert all[0] == run[0] && all[..|run|] == run && all[|run|..] == rest;
    hide EncodeResults, DeferredParts, ImageMessage, Then;
  }

  /** A batch in front of what is no result, or any batch without images, is encoded on its own. */
  lemma EncodeBatch(batch: History, rest: History)
    requires AllResults(batch) && batch != []
    requires DeferredParts(batch) == [] || rest == [] || !rest[0].ResultTurn?
    ensures Encode(batch + rest) == Then(Ok(EncodeResults(batch) + ImageMessage(DeferredParts(batch))), Encode(rest))
  {
    if rest == [] || !rest[0].ResultTurn? {
      EncodeRun(batch, rest);
    } else {
      var m := RunLength(rest);
      var more, after := rest[..m], rest[m..];
      assert rest == more + after && batch + rest == (batch + more) + after && more != [];
      ResultsJoin(batch, more);
      ImagesJoin(batch, more);
      EncodeRun(batch + more, after);
      EncodeRun(more, after);
      JoinedRun(EncodeResults(batch), EncodeResults(more), DeferredParts(more), Encode(after));
      hide EncodeResults, DeferredParts, ImageMessage, Then, Encode;
    }
  }

  lemma JoinedRun(x: seq<ChatMessage>, y: seq<ChatMessage>, images: seq<ChatPart>, rest: Encoded)
    ensures Then(Ok(x + y + ImageMessage([] + images)), rest)
         == Then(Ok(x + ImageMessage([])), Then(Ok(y + ImageMessage(images)), rest))
  {
    assert [] + images == images && x + ImageMessage([]) == x;
    AppendAssociates(x, y, ImageMessage(images));
    ThenAssociates(Ok(x), Ok(y + ImageMessage(images)), rest);
    hide ImageMessage;
  }

  /** Dropping the invisible turns leaves the wire alone when no images are split. */
  lemma {:induction false} EncodeVisible(turns: History)
    requires !SplitsImages(turns)
    ensures Encode(turns).Ok? ==> Encode(Visible(turns)) == Encode(turns)
    decreases |turns|
  {
    if turns != [] {
      if turns[0].ResultTurn? {
        var n := RunLength(turns);
        var batch, rest := turns[..n], turns[n..];
        assert turns == batch + rest;
        EncodeVisible(rest);
        VisibleBatch(batch, rest);
        EncodeBatch(batch, Visible(rest));
      } else {
        EncodeVisible(turns[1..]);
        ThenNothing(Encode(turns[1..]));
        assert !Invisible(turns[0]) ==> Visible(turns)[1..] == Visible(turns[1..]);
      }
    }
  }

  /** A tool message right after a user message. */
  predicate Stray(wire: seq<ChatMessage>) {
    exists i :: 0 <= i < |wire| - 1 && wire[i].ChatUser? && wire[i + 1].ChatTool?
  }

  lemma StrayAfter(a: seq<ChatMessage>, b: seq<ChatMessage>)
    requires Stray(b)
    ensures Stray(a + b)
  {
    var i :| 0 <= i < |b| - 1 && b[i].ChatUser? && b[i + 1].ChatTool?;
    assert (a + b)[|a| + i] == b[i] && (a + b)[|a| + i + 1] == b[i + 1];
  }

  lemma {:induction false} StrayIsRejected(wire: seq<ChatMessage>)
    requires Stray(wire)
    ensures !ToolsFollowCalls(wire)
    decreases |wire|
  {
    var i :| 0 <= i < |wire| - 1 && wire[i].ChatUser? && wire[i + 1].ChatTool?;
    match wire[0]
    case ChatTool(_, _) =>
    case ChatUser(_) =>
      if i > 0 {
        assert wire[1..][i - 1] == wire[i] && wire[1..][i] == wire[i + 1];
        StrayIsRejected(wire[1..]);
      }
    case ChatAssistant(_, _, _, _) =>
      var tail := wire[1..];
      var n := LeadingTools(tail);
      assert tail[i - 1] == wire[i];
      assert n <= i - 1;
      assert tail[n..][i - 1 - n] == wire[i] && tail[n..][i - n] == wire[i + 1];
      StrayIsRejected(tail[n..]);
  }

  lemma {:induction false} ResultHeadIsTool(turns: History)
    requires Encode(turns).Ok? && ResultComesNext(turns)
    ensures Encode(turns).value != [] && Encode(turns).value[0].ChatTool?
  {
    if turns[0].ResultTurn? {
      assert EncodeResults(turns[..RunLength(turns)])[0] == EncodeResult(turns[0]);
    } else {
      ResultHeadIsTool(turns[1..]);
      ThenNothing(Encode(turns[1..]));
    }
  }

  lemma {:induction false} SplitImagesStray(turns: History)
    requires Encode(turns).Ok? && SplitsImages(turns)
    ensures Stray(Encode(turns).value)
    decreases |turns|
  {
    if turns[0].ResultTurn? {
      var n := RunLength(turns);
      var batch, rest := turns[..n], turns[n..];
      var results, images := EncodeResults(batch), ImageMessage(DeferredParts(batch));
      if SplitsImages(rest) {
        SplitImagesStray(rest);
        StrayAfter(results + images, Encode(rest).value);
      } else {
        ResultHeadIsTool(rest);
        var tail := images + Encode(rest).value;
        assert tail[0].ChatUser? && tail[1] == Encode(rest).value[0];
        StrayAfter(results, tail);
        AppendAssociates(results, images, Encode(rest).value);
      }
    } else {
      SplitImagesStray(turns[1..]);
      StrayAfter(EncodeTurn(turns[0]).value, Encode(turns[1..]).value);
    }
  }

  /** Tool runs are unbroken exactly when the visible turns are answered and no invisible turn splits a run with images. */
  lemma ToolsFollowCallsIff(turns: History)
    requires Encode(turns).Ok?
    ensures ToolsFollowCalls(Encode(turns).value) <==> Answered(Visible(turns)) && !SplitsImages(turns)
  {
    if SplitsImages(turns) {
      SplitImagesStray(turns);
      StrayIsRejected(Encode(turns).value);
    } else {
      EncodeVisible(turns);
      VisibleIsAllVisible(turns);
      ToolsFollowCallsIfAnswered(Visible(turns));
    }
  }

  const GAP_ITEMS: seq<Item> := [CallItem("a", "f", Json("{}"), false, None)]
  const GAP_ANSWER: Turn := ResultTurn("a", "f", false, PlainInput("ok"))

  lemma GapCall()
    ensures EncodeAssistant(GAP_ITEMS) == Ok(Some(ChatAssistant(None, CallsOf(GAP_ITEMS), None, None)))
    ensures CallsOf(GAP_ITEMS) == [ChatCall("a", "f", Json("{}"))] && CallIds(GAP_ITEMS) == ["a"]
  {
  }

  lemma GapAnswer()
    ensures EncodeResults([GAP_ANSWER]) == [EncodeResult(GAP_ANSWER)]
    ensures Encode([GAP_ANSWER]) == Ok([EncodeResult(GAP_ANSWER)]) && AnsweredIds([GAP_ANSWER]) == ["a"]
  {
    assert [GAP_ANSWER][..1] == [GAP_ANSWER] && [GAP_ANSWER][1..] == [];
    assert Deferred(GAP_ANSWER) == [];
    assert DeferredParts([GAP_ANSWER]) == Deferred(GAP_ANSWER) + DeferredParts([]) == [];
  }

  /** Without that proviso the converse fails: an empty turn hides between the call and its answer. */
  lemma InvisibleTurnHidesGap()
    ensures var turns := [AssistantTurn(GAP_ITEMS), AssistantTurn([]), GAP_ANSWER];
            Encode(turns).Ok? && ToolsFollowCalls(Encode(turns).value) && !Answered(turns)
  {
    var turns := [AssistantTurn(GAP_ITEMS), AssistantTurn([]), GAP_ANSWER];
    assert turns[1..] == [AssistantTurn([]), GAP_ANSWER] && turns[1..][1..] == [GAP_ANSWER];
    GapCall();
    GapAnswer();
    assert !Answered(turns);
    ThenNothing(Encode([GAP_ANSWER]));
    assert EncodeAssistant([]) == Ok(None);
    assert Encode(turns[1..]) == Ok([EncodeResult(GAP_ANSWER)]);
    var head := ChatAssistant(None, CallsOf(GAP_ITEMS), None, None);
    AssistantUnit(GAP_ITEMS, [GAP_ANSWER], []);
    assert Encode(turns).value == [head] + (EncodeResults([GAP_ANSWER]) + []);
  }
}
