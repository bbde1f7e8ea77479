/** What the Chat wire carries, read off the history itself. */
module ChatConservation {
  import opened Wrappers
  import opened Wire
  import opened Neutral
  import opened Strings
  import opened ChatCodec
  import AnthropicCodec
  import A = AnthropicConservation

  // ---- Parts ----

  /** Every part keeps its place and its content. */
  lemma {:induction false} PartsKeepTheirPlaces(parts: seq<Part>, i: nat)
    requires i < |parts|
    ensures |EncodeParts(parts)| == |parts|
    ensures match parts[i]
            case TextPart(text) => EncodeParts(parts)[i] == ChatText(text)
            case DataImage(mediaType, data) => EncodeParts(parts)[i] == ChatImage("data:" + mediaType + ";base64," + data)
            case UrlImage(_, url) => EncodeParts(parts)[i] == ChatImage(url)
  {
    if i > 0 {
      PartsKeepTheirPlaces(parts[1..], i - 1);
    } else if |parts| > 1 {
      PartsKeepTheirPlaces(parts[1..], 0);
    }
  }

  lemma {:induction false} PartsAppend(a: seq<Part>, b: seq<Part>)
    ensures EncodeParts(a + b) == EncodeParts(a) + EncodeParts(b)
  {
    if a == [] {
      assert a + b == b;
    } else {
      PartsAppend(a[1..], b);
      assert (a + b)[0] == a[0] && (a + b)[1..] == a[1..] + b;
    }
  }

  // ---- Assistant turns ----

  lemma {:induction false} TextReads(items: seq<Item>, texts: Item -> bool, textOf: Item -> string)
    requires forall item: Item :: texts(item) <==> item.TextItem?
    requires forall item: Item :: item.TextItem? ==> textOf(item) == item.text
    ensures TextOf(items) == Flat(Mapped(Filter(items, texts), textOf))
  {
    if items != [] {
      TextReads(items[1..], texts, textOf);
      var kept := Filter(items, texts);
      if items[0].TextItem? {
        assert Mapped(kept, textOf)[0] == items[0].text;
        assert Mapped(kept, textOf)[1..] == Mapped(Filter(items[1..], texts), textOf);
      }
    }
  }

  lemma {:induction false} ReasoningReads(items: seq<Item>, thoughts: Item -> bool, thoughtOf: Item -> string)
    requires forall item: Item :: thoughts(item) <==> item.ThinkingItem? && !item.redacted
    requires forall item: Item :: item.ThinkingItem? ==> thoughtOf(item) == item.thinking
    ensures ReasoningOf(items) == Flat(Mapped(Filter(items, thoughts), thoughtOf))
  {
    if items != [] {
      ReasoningReads(items[1..], thoughts, thoughtOf);
      var kept := Filter(items, thoughts);
      if thoughts(items[0]) {
        assert Mapped(kept, thoughtOf)[0] == items[0].thinking;
        assert Mapped(kept, thoughtOf)[1..] == Mapped(Filter(items[1..], thoughts), thoughtOf);
      }
    }
  }

  lemma {:induction false} CallsRead(items: seq<Item>, calls: Item -> bool, callOf: Item -> ChatCall)
    requires forall item: Item :: calls(item) <==> item.CallItem? && !item.partial
    requires forall item: Item :: item.CallItem? ==> callOf(item) == ChatCall(item.id, item.name, item.arguments)
    ensures CallsOf(items) == Mapped(Filter(items, calls), callOf)
  {
    if items != [] {
      CallsRead(items[1..], calls, callOf);
    }
  }

  lemma {:induction false} OpaqueReads(items: seq<Item>, blobs: Item -> bool, blobOf: Item -> string)
    requires forall item: Item :: blobs(item) <==> item.ThinkingItem? && !item.redacted && item.encrypted.Some?
    requires forall item: Item :: blobs(item) ==> blobOf(item) == item.encrypted.value
    ensures OpaqueOf(items) == Mapped(Filter(items, blobs), blobOf)
  {
    if items != [] {
      OpaqueReads(items[1..], blobs, blobOf);
    }
  }

  /** One turn against its joined text, its complete calls, its joined readable reasoning and its opaque blocks. */
  predicate Says(encoded: Result<Option<ChatMessage>, ChatError>, redacted: bool, text: string, calls: seq<ChatCall>,
                 reasoning: string, blobs: seq<string>) {
    if redacted then encoded == Err(RedactedThinkingUnsupported)
    else if |blobs| > 1 then encoded == Err(SeveralOpaqueBlocks)
    else if text != "" || calls != [] then
      && encoded.Ok? && encoded.value.Some? && encoded.value.value.ChatAssistant?
      && (text != "" ==> encoded.value.value.text == Some(text)) && (text == "" ==> encoded.value.value.text == None)
      && encoded.value.value.calls == calls
      && (reasoning != "" ==> encoded.value.value.reasoning == Some(reasoning))
      && (reasoning == "" ==> encoded.value.value.reasoning == None)
      && encoded.value.value.encrypted == if blobs == [] then None else Some(blobs[0])
    else if reasoning != "" then
      encoded == Ok(Some(ChatAssistant(Some(reasoning), [], None, if blobs == [] then None else Some(blobs[0]))))
    else if blobs != [] then encoded == Err(OpaqueOnlyTurn)
    else encoded == Ok(None)
  }

  lemma EncodedSays(items: seq<Item>)
    ensures Says(EncodeAssistant(items), HasRedacted(items), TextOf(items), CallsOf(items), ReasoningOf(items), OpaqueOf(items))
  {
    hide HasRedacted, TextOf, CallsOf, ReasoningOf, OpaqueOf;
  }

  /** An assistant turn sends its texts as content, its complete calls, and its readable reasoning apart, or as content when alone. */
  lemma AssistantReads(items: seq<Item>, texts: Item -> bool, textOf: Item -> string, thoughts: Item -> bool,
                       thoughtOf: Item -> string, calls: Item -> bool, callOf: Item -> ChatCall, blobs: Item -> bool,
                       blobOf: Item -> string)
    requires forall item: Item :: texts(item) <==> item.TextItem?
    requires forall item: Item :: item.TextItem? ==> textOf(item) == item.text
    requires forall item: Item :: thoughts(item) <==> item.ThinkingItem? && !item.redacted
    requires forall item: Item :: item.ThinkingItem? ==> thoughtOf(item) == item.thinking
    requires forall item: Item :: calls(item) <==> item.CallItem? && !item.partial
    requires forall item: Item :: item.CallItem? ==> callOf(item) == ChatCall(item.id, item.name, item.arguments)
    requires forall item: Item :: blobs(item) <==> item.ThinkingItem? && !item.redacted && item.encrypted.Some?
    requires forall item: Item :: blobs(item) ==> blobOf(item) == item.encrypted.value
    ensures Says(EncodeAssistant(items), exists i :: 0 <= i < |items| && items[i].ThinkingItem? && items[i].redacted,
                 Flat(Mapped(Filter(items, texts), textOf)), Mapped(Filter(items, calls), callOf),
                 Flat(Mapped(Filter(items, thoughts), thoughtOf)), Mapped(Filter(items, blobs), blobOf))
  {
    TextReads(items, texts, textOf);
    ReasoningReads(items, thoughts, thoughtOf);
    CallsRead(items, calls, callOf);
    OpaqueReads(items, blobs, blobOf);
    EncodedSays(items);
    hide Says, EncodeAssistant, Filter, Mapped, Flat, TextOf, CallsOf, ReasoningOf, OpaqueOf;
  }

  /** A user turn is one message with its input; an assistant turn is at most one message. */
  lemma TurnReads(turn: Turn)
    requires !turn.ResultTurn?
    ensures match turn
      case UserTurn(PlainInput(text)) => EncodeTurn(turn) == Ok([ChatUser(PlainContent(text))])
      case UserTurn(Parts(parts)) => EncodeTurn(turn) == Ok([ChatUser(PartContent(EncodeParts(parts)))])
      case AssistantTurn(items) =>
        (match EncodeAssistant(items)
         case Err(e) => EncodeTurn(turn) == Err(e)
         case Ok(message) => EncodeTurn(turn) == Ok(if message.Some? then [message.value] else []))
  {
  }

  // ---- Runs of results ----

  lemma {:induction false} TextsRead(parts: seq<Part>, isText: Part -> bool, textOf: Part -> string)
    requires forall part: Part :: isText(part) <==> part.TextPart?
    requires forall part: Part :: part.TextPart? ==> textOf(part) == part.text
    ensures TextsOf(parts) == Mapped(Filter(parts, isText), textOf)
  {
    if parts != [] {
      TextsRead(parts[1..], isText, textOf);
    }
  }

  /** The tool message answers the turn's call with its text, or all its texts by lines, in an envelope for an error. */
  ghost predicate AnswersWith(message: ChatMessage, turn: Turn, isText: Part -> bool, textOf: Part -> string)
    requires turn.ResultTurn?
  {
    var text := match turn.input
      case PlainInput(text) => text
      case Parts(parts) => Join(Mapped(Filter(parts, isText), textOf));
    message == ChatTool(turn.callId, if turn.isError then ErrorEnvelope(text) else Bare(text))
  }

  lemma {:induction false} ResultsAt(batch: History, i: nat, isText: Part -> bool, textOf: Part -> string)
    requires AllResults(batch) && i < |batch|
    requires forall part: Part :: isText(part) <==> part.TextPart?
    requires forall part: Part :: part.TextPart? ==> textOf(part) == part.text
    ensures |EncodeResults(batch)| == |batch| && AnswersWith(EncodeResults(batch)[i], batch[i], isText, textOf)
  {
    if i > 0 {
      ResultsAt(batch[1..], i - 1, isText, textOf);
    } else {
      if batch[0].input.Parts? {
        TextsRead(batch[0].input.parts, isText, textOf);
      }
      if |batch| > 1 {
        ResultsAt(batch[1..], 0, isText, textOf);
      }
    }
  }

  lemma {:induction false} ImagesMove(batch: History, isImage: Part -> bool)
    requires AllResults(batch) && forall part: Part :: isImage(part) <==> !part.TextPart?
    ensures DeferredParts(batch) == EncodeParts(A.MovedParts(batch, isImage))
  {
    if batch != [] {
      ImagesMove(batch[1..], isImage);
      A.ImagesAreMoved(A.PartsIn(batch[0].input), isImage);
      var own := AnthropicCodec.Deferred(batch[0], AnthropicCodec.AsUser);
      PartsAppend(own, A.MovedParts(batch[1..], isImage));
    }
  }

  /** A run of results becomes one tool message each, then one user message with all their images, then the rest. */
  lemma RunReads(turns: History, isText: Part -> bool, textOf: Part -> string, isImage: Part -> bool)
    requires turns != [] && turns[0].ResultTurn? && Encode(turns).Ok?
    requires forall part: Part :: isText(part) <==> part.TextPart?
    requires forall part: Part :: part.TextPart? ==> textOf(part) == part.text
    requires forall part: Part :: isImage(part) <==> !part.TextPart?
    ensures Encode(turns[RunLength(turns)..]).Ok?
    ensures var n, wire := RunLength(turns), Encode(turns).value;
            var moved := A.MovedParts(turns[..n], isImage);
            && n <= |wire|
            && (forall i :: 0 <= i < n ==> AnswersWith(wire[i], turns[i], isText, textOf))
            && wire[n..] == (if moved == [] then [] else [ChatUser(PartContent(EncodeParts(moved)))])
                            + Encode(turns[n..]).value
  {
    var n := RunLength(turns);
    var batch := turns[..n];
    ImagesMove(batch, isImage);
    var results, moved := EncodeResults(batch), A.MovedParts(batch, isImage);
    assert EncodeParts(moved) == [] <==> moved == [];
    forall i | 0 <= i < n ensures |results| == n && AnswersWith(results[i], turns[i], isText, textOf) {
      ResultsAt(batch, i, isText, textOf);
    }
    ResultsAt(batch, 0, isText, textOf);
    var second := if moved == [] then [] else [ChatUser(PartContent(EncodeParts(moved)))];
    assert Encode(turns).value == (results + second) + Encode(turns[n..]).value;
    AfterResults(results, second, Encode(turns[n..]).value);
    hide EncodeResults, DeferredParts, A.MovedParts, AnswersWith, EncodeParts;
  }

  lemma AfterResults(results: seq<ChatMessage>, second: seq<ChatMessage>, rest: seq<ChatMessage>)
    ensures (results + second + rest)[|results|..] == second + rest
    ensures forall i :: 0 <= i < |results| ==> (results + second + rest)[i] == results[i]
  {
  }

  /** Between two turns that are not both results a history is encoded piece by piece, the leftmost error first. */
  lemma {:induction false} EncodeSplits(before: History, rest: History)
    requires before != [] && rest != [] ==> !before[|before| - 1].ResultTurn? || !rest[0].ResultTurn?
    ensures Encode(before + rest) == Then(Encode(before), Encode(rest))
    decreases |before|
  {
    var all := before + rest;
    if before == [] {
      assert all == rest;
      ThenNothing(Encode(rest));
    } else if rest == [] {
      assert all == before;
      ThenNothing(Encode(before));
    } else if before[0].ResultTurn? {
      var n := RunLength(before);
      A.RunBefore(before, rest);
      assert all[..n] == before[..n] && all[n..] == before[n..] + rest;
      EncodeSplits(before[n..], rest);
      ThenAssociates(Ok(EncodeResults(before[..n]) + ImageMessage(DeferredParts(before[..n]))), Encode(before[n..]), Encode(rest));
      hide EncodeResults, ImageMessage, DeferredParts, Then;
    } else {
      assert all[0] == before[0] && all[1..] == before[1..] + rest;
      EncodeSplits(before[1..], rest);
      ThenAssociates(EncodeTurn(before[0]), Encode(before[1..]), Encode(rest));
      hide EncodeTurn, Then;
    }
  }
}
