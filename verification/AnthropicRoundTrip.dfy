/** Encoding then projecting yields a normal form; encoding again changes nothing. */
module AnthropicRoundTrip {
  import opened Wrappers
  import opened Wire
  import opened Neutral
  import opened AnthropicCodec
  import opened Pairing

  // ---- The normal form: what survives a trip through the wire ----

  function NormalPart(part: Part): Part {
    if part.UrlImage? then UrlImage("image/png", part.url) else part
  }

  function NormalParts(parts: seq<Part>): seq<Part> {
    if parts == [] then [] else [NormalPart(parts[0])] + NormalParts(parts[1..])
  }

  function NormalInput(input: Input): Input {
    match input
    case PlainInput(_) => input
    case Parts(parts) => Parts(NormalParts(parts))
  }

  /** Empty text and partial calls vanish; redacted thinking keeps only its opaque data. */
  function NormalItem(item: Item): Option<Item> {
    match item
    case TextItem(text) => if text == "" then None else Some(item)
    case ThinkingItem(_, _, redacted, encrypted) =>
      if redacted then Some(ThinkingItem("", None, true, Some(IdText(encrypted)))) else Some(item)
    case CallItem(id, name, arguments, partial, _) =>
      if partial then None else Some(CallItem(id, name, arguments, false, None))
  }

  function NormalItems(items: seq<Item>): seq<Item> {
    if items == [] then []
    else
      var first, rest := NormalItem(items[0]), NormalItems(items[1..]);
      if first.None? then rest else [first.value] + rest
  }

  function NormalTurn(turn: Turn): Turn
    requires !turn.ResultTurn?
  {
    match turn
    case UserTurn(input) => UserTurn(NormalInput(input))
    case AssistantTurn(items) => AssistantTurn(NormalItems(items))
  }

  /** A result loses its tool name, and under AsUser its images. */
  function NormalResult(turn: Turn, placement: Placement): Turn
    requires turn.ResultTurn?
  {
    ResultTurn(turn.callId, "", turn.isError, NormalInput(Remaining(turn.input, placement)))
  }

  function NormalResults(batch: History, placement: Placement): (r: History)
    requires AllResults(batch)
    ensures |r| == |batch| && AllResults(r)
  {
    if batch == [] then [] else [NormalResult(batch[0], placement)] + NormalResults(batch[1..], placement)
  }

  function ImageTurn(parts: seq<Part>): History {
    if parts == [] then [] else [UserTurn(Parts(NormalParts(parts)))]
  }

  /** A run of results is followed by one user turn holding every image moved out of it. */
  function Normal(turns: History, placement: Placement): History
    decreases |turns|
  {
    if turns == [] then []
    else if turns[0].ResultTurn? then
      var n := RunLength(turns);
      NormalResults(turns[..n], placement) + ImageTurn(DeferredParts(turns[..n], placement)) + Normal(turns[n..], placement)
    else [NormalTurn(turns[0])] + Normal(turns[1..], placement)
  }

  // ---- Projecting what was encoded ----

  lemma {:induction false} PartsProject(parts: seq<Part>)
    ensures ProjectParts(EncodeParts(parts)) == Some(NormalParts(parts))
    ensures |EncodeParts(parts)| == |parts|
    ensures forall b :: b in EncodeParts(parts) ==> b.Text? || b.Image?
  {
    if parts != [] {
      PartsProject(parts[1..]);
      assert NormalParts(parts) == [NormalPart(parts[0])] + NormalParts(parts[1..]);
      assert EncodeParts(parts)[0] == EncodePart(parts[0]) && EncodeParts(parts)[1..] == EncodeParts(parts[1..]);
    } else {
      assert NormalParts(parts) == [];
    }
  }

  lemma InputProjects(input: Input)
    ensures ProjectInput(EncodeInput(input)) == Some(NormalInput(input))
  {
    if input.Parts? {
      PartsProject(input.parts);
    }
  }

  lemma {:induction false} ItemsProject(items: seq<Item>)
    ensures ProjectItems(EncodeItems(items)) == Some(NormalItems(items))
  {
    if items != [] {
      ItemsProject(items[1..]);
      var first, blocks := EncodeItem(items[0]), EncodeItems(items);
      if first.Some? {
        assert blocks[0] == first.value && blocks[1..] == EncodeItems(items[1..]);
        assert ProjectItem(first.value) == NormalItem(items[0]);
      }
    }
  }

  lemma {:induction false} PlainBlocksProject(pending: seq<Block>, blocks: seq<Block>)
    requires forall b :: b in blocks ==> !b.ToolResult?
    ensures ProjectUserBlocks(pending, blocks) == ProjectPending(pending + blocks)
    decreases |blocks|
  {
    if blocks == [] {
      assert pending + blocks == pending;
    } else {
      PlainBlocksProject(pending + [blocks[0]], blocks[1..]);
      assert (pending + [blocks[0]]) + blocks[1..] == pending + blocks;
    }
  }

  lemma {:induction false} ResultsProject(batch: History, placement: Placement)
    requires AllResults(batch)
    ensures ProjectUserBlocks([], EncodeResults(batch, placement)) == Some(NormalResults(batch, placement))
  {
    if batch != [] {
      ResultsProject(batch[1..], placement);
      InputProjects(Remaining(batch[0].input, placement));
      var blocks := EncodeResults(batch, placement);
      assert blocks[0] == EncodeResult(batch[0], placement) && blocks[1..] == EncodeResults(batch[1..], placement);
      assert ProjectResult(blocks[0]) == Some(NormalResult(batch[0], placement));
      BothNothing(Some([NormalResult(batch[0], placement)]));
    }
  }

  lemma TurnProjects(turn: Turn)
    requires !turn.ResultTurn?
    ensures ProjectMessage(EncodeTurn(turn)) == Some([NormalTurn(turn)])
  {
    match turn
    case UserTurn(PlainInput(_)) =>
    case UserTurn(Parts(parts)) =>
      PartsProject(parts);
      if parts == [] {
        assert NormalParts(parts) == [];
      } else {
        PlainBlocksProject([], EncodeParts(parts));
        assert [] + EncodeParts(parts) == EncodeParts(parts);
      }
    case AssistantTurn(items) =>
      ItemsProject(items);
  }

  lemma ProjectAppend(a: seq<Message>, b: seq<Message>)
    ensures Project(a + b) == Both(Project(a), Project(b))
  {
    if a == [] {
      assert a + b == b;
      BothNothing(Project(b));
    } else {
      assert (a + b)[0] == a[0] && (a + b)[1..] == a[1..] + b;
      ProjectAppend(a[1..], b);
      BothAssociates(ProjectMessage(a[0]), Project(a[1..]), Project(b));
    }
  }

  lemma ProjectOne(message: Message)
    ensures Project([message]) == ProjectMessage(message)
  {
    assert [message][1..] == [];
    BothNothing(ProjectMessage(message));
  }

  lemma FlushProjects(batch: History, placement: Placement)
    requires AllResults(batch) && batch != []
    ensures var images := DeferredParts(batch, placement);
            Project(Flushed(EncodeResults(batch, placement), EncodeParts(images)))
            == Some(NormalResults(batch, placement) + ImageTurn(images))
  {
    var results, images := EncodeResults(batch, placement), DeferredParts(batch, placement);
    ResultsProject(batch, placement);
    ProjectOne(Message(User, Blocks(results)));
    PartsProject(images);
    if images == [] {
      assert Flushed(results, EncodeParts(images)) == [Message(User, Blocks(results))];
    } else {
      ProjectOne(Message(User, Blocks(EncodeParts(images))));
      ProjectAppend([Message(User, Blocks(results))], [Message(User, Blocks(EncodeParts(images)))]);
      PlainBlocksProject([], EncodeParts(images));
      assert [] + EncodeParts(images) == EncodeParts(images);
    }
  }

  /** Projecting an encoding gives exactly the normal form, although runs were merged and images deferred. */
  lemma {:induction false} ProjectEncode(turns: History, placement: Placement)
    ensures Project(Encode(turns, placement)) == Some(Normal(turns, placement))
    decreases |turns|
  {
    if turns == [] {
    } else if turns[0].ResultTurn? {
      var n := RunLength(turns);
      ProjectEncode(turns[n..], placement);
      FlushProjects(turns[..n], placement);
      ProjectAppend(Flushed(EncodeResults(turns[..n], placement), EncodeParts(DeferredParts(turns[..n], placement))),
                    Encode(turns[n..], placement));
    } else {
      ProjectEncode(turns[1..], placement);
      TurnProjects(turns[0]);
      ProjectOne(EncodeTurn(turns[0]));
      ProjectAppend([EncodeTurn(turns[0])], Encode(turns[1..], placement));
    }
  }

  // ---- Encoding the normal form ----

  lemma {:induction false} PartsStable(parts: seq<Part>)
    ensures EncodeParts(NormalParts(parts)) == EncodeParts(parts)
  {
    if parts != [] {
      PartsStable(parts[1..]);
      assert NormalParts(parts)[1..] == NormalParts(parts[1..]);
    }
  }

  lemma InputStable(input: Input)
    ensures EncodeInput(NormalInput(input)) == EncodeInput(input)
  {
    if input.Parts? {
      PartsStable(input.parts);
    }
  }

  lemma {:induction false} ItemsStable(items: seq<Item>)
    ensures EncodeItems(NormalItems(items)) == EncodeItems(items)
  {
    if items != [] {
      ItemsStable(items[1..]);
      var first, normal := NormalItem(items[0]), NormalItems(items);
      if first.Some? {
        assert normal[0] == first.value && normal[1..] == NormalItems(items[1..]);
        assert EncodeItem(first.value) == EncodeItem(items[0]);
      }
    }
  }

  lemma {:induction false} TextsHaveNoImages(parts: seq<Part>)
    ensures ImagesOf(NormalParts(TextsOf(parts))) == []
    ensures ImagesOf(parts) == [] ==> ImagesOf(NormalParts(parts)) == []
  {
    if parts != [] {
      TextsHaveNoImages(parts[1..]);
      assert NormalParts(parts)[1..] == NormalParts(parts[1..]);
      if parts[0].TextPart? {
        assert TextsOf(parts)[0] == parts[0] && TextsOf(parts)[1..] == TextsOf(parts[1..]);
        assert NormalParts(TextsOf(parts))[1..] == NormalParts(TextsOf(parts[1..]));
      }
    }
  }

  lemma ResultStable(turn: Turn, placement: Placement)
    requires turn.ResultTurn?
    ensures Deferred(NormalResult(turn, placement), placement) == []
    ensures EncodeResult(NormalResult(turn, placement), placement) == EncodeResult(turn, placement)
  {
    var kept := Remaining(turn.input, placement);
    if turn.input.Parts? {
      TextsHaveNoImages(turn.input.parts);
    }
    assert Relocated(NormalInput(kept), placement) == [];
    InputStable(kept);
  }

  lemma {:induction false} ResultsStable(batch: History, placement: Placement)
    requires AllResults(batch)
    ensures EncodeResults(NormalResults(batch, placement), placement) == EncodeResults(batch, placement)
    ensures DeferredParts(NormalResults(batch, placement), placement) == []
  {
    if batch != [] {
      ResultsStable(batch[1..], placement);
      ResultStable(batch[0], placement);
      assert NormalResults(batch, placement)[1..] == NormalResults(batch[1..], placement);
    }
  }

  lemma {:induction false} RunLengthOfBatch(batch: History, rest: History)
    requires AllResults(batch) && (rest != [] ==> !rest[0].ResultTurn?)
    ensures RunLength(batch + rest) == |batch|
  {
    if batch == [] {
      assert batch + rest == rest;
    } else {
      RunLengthOfBatch(batch[1..], rest);
      assert (batch + rest)[0] == batch[0] && (batch + rest)[1..] == batch[1..] + rest;
    }
  }

  lemma EncodeBatch(batch: History, rest: History, placement: Placement)
    requires batch != [] && AllResults(batch) && (rest != [] ==> !rest[0].ResultTurn?)
    ensures Encode(batch + rest, placement)
         == Flushed(EncodeResults(batch, placement), EncodeParts(DeferredParts(batch, placement))) + Encode(rest, placement)
  {
    RunLengthOfBatch(batch, rest);
    var all := batch + rest;
    assert all[0] == batch[0] && all[..|batch|] == batch && all[|batch|..] == rest;
  }

  lemma NormalBatchStable(batch: History, rest: History, placement: Placement)
    requires batch != [] && AllResults(batch) && (rest != [] ==> !rest[0].ResultTurn?)
    ensures Encode(NormalResults(batch, placement) + (ImageTurn(DeferredParts(batch, placement)) + rest), placement)
         == Flushed(EncodeResults(batch, placement), EncodeParts(DeferredParts(batch, placement))) + Encode(rest, placement)
  {
    var results, images := EncodeResults(batch, placement), DeferredParts(batch, placement);
    var tail := ImageTurn(images) + rest;
    ResultsStable(batch, placement);
    EncodeBatch(NormalResults(batch, placement), tail, placement);
    PartsStable(images);
    PartsProject(images);
    if images == [] {
      assert tail == rest;
    } else {
      assert tail[1..] == rest;
      assert Encode(tail, placement) == [Message(User, Blocks(EncodeParts(images)))] + Encode(rest, placement);
      assert Flushed(results, []) == [Message(User, Blocks(results))];
      assert Flushed(results, EncodeParts(images)) == [Message(User, Blocks(results))] + [Message(User, Blocks(EncodeParts(images)))];
      AppendAssociates([Message(User, Blocks(results))], [Message(User, Blocks(EncodeParts(images)))], Encode(rest, placement));
    }
  }

  lemma {:induction false} EncodeNormal(turns: History, placement: Placement)
    ensures Encode(Normal(turns, placement), placement) == Encode(turns, placement)
    ensures turns != [] && !turns[0].ResultTurn? ==> Normal(turns, placement) != [] && !Normal(turns, placement)[0].ResultTurn?
    decreases |turns|
  {
    if turns == [] {
    } else if turns[0].ResultTurn? {
      var n := RunLength(turns);
      var batch, rest := turns[..n], Normal(turns[n..], placement);
      EncodeNormal(turns[n..], placement);
      NormalBatchStable(batch, rest, placement);
      AppendAssociates(NormalResults(batch, placement), ImageTurn(DeferredParts(batch, placement)), rest);
    } else {
      EncodeNormal(turns[1..], placement);
      var normal := Normal(turns, placement);
      assert normal[1..] == Normal(turns[1..], placement);
      match turns[0] {
        case UserTurn(input) => InputStable(input);
        case AssistantTurn(items) => ItemsStable(items);
      }
    }
  }

  /** A transcript that has been on the wire once is fixed: sending it again sends the same bytes. */
  lemma EncodeProjectEncode(turns: History, placement: Placement)
    ensures Project(Encode(turns, placement)).Some?
    ensures Encode(Project(Encode(turns, placement)).value, placement) == Encode(turns, placement)
    ensures Normal(Normal(turns, placement), placement) == Normal(turns, placement)
  {
    ProjectEncode(turns, placement);
    EncodeNormal(turns, placement);
    ProjectEncode(Normal(turns, placement), placement);
  }

  // ---- Pairing of the encoded wire ----

  lemma {:induction false} PartsCarryNoIds(parts: seq<Part>)
    ensures ResultIds(EncodeParts(parts)) == [] && UseIds(EncodeParts(parts)) == []
  {
    if parts != [] {
      PartsCarryNoIds(parts[1..]);
      assert EncodeParts(parts)[1..] == EncodeParts(parts[1..]);
    }
  }

  lemma {:induction false} ItemsCarryCalls(items: seq<Item>)
    ensures UseIds(EncodeItems(items)) == CallIds(items)
  {
    if items != [] {
      ItemsCarryCalls(items[1..]);
      var first, blocks := EncodeItem(items[0]), EncodeItems(items);
      if first.Some? {
        assert blocks[0] == first.value && blocks[1..] == EncodeItems(items[1..]);
      }
    }
  }

  lemma {:induction false} ResultsCarryAnswers(batch: History, placement: Placement)
    requires AllResults(batch)
    ensures ResultIds(EncodeResults(batch, placement)) == AnsweredIds(batch)
    ensures |EncodeResults(batch, placement)| == |AnsweredIds(batch)| == |batch|
  {
    if batch != [] {
      ResultsCarryAnswers(batch[1..], placement);
      var blocks := EncodeResults(batch, placement);
      assert blocks[1..] == EncodeResults(batch[1..], placement);
    }
  }

  /** Prefixing an assistant message to a wire that does not start with results. */
  lemma PairedAfterAssistant(message: Message, rest: seq<Message>)
    requires message.role == Assistant
    requires rest != [] && rest[0].role == User ==> ToolResultIds(rest[0]) == []
    ensures WellPaired([message] + rest) <==> ToolUseIds(message) == [] && WellPaired(rest)
  {
    var all := [message] + rest;
    assert all[0] == message && (rest != [] ==> all[1] == rest[0]);
    if WellPaired(all) {
      assert PairedAt(all, 0);
      assert PairedAt([message], 0);
      WellPairedCut([message], rest);
    } else if ToolUseIds(message) == [] && WellPaired(rest) {
      assert PairedAt([message], 0);
      WellPairedAppend([message], rest);
    }
  }

  /** A call message and its result message form a closed unit. */
  lemma PairedAfterPair(calls: Message, answers: Message, rest: seq<Message>)
    requires calls.role == Assistant && answers.role == User && ToolResultIds(answers) != []
    ensures WellPaired([calls, answers] + rest) <==>
      && "" !in ToolUseIds(calls) && "" !in ToolResultIds(answers) && Distinct(ToolUseIds(calls))
      && IdsMatch(ToolUseIds(calls), ToolResultIds(answers)) && WellPaired(rest)
  {
    var pair := [calls, answers];
    var all := pair + rest;
    assert all[0] == calls && all[1] == answers;
    if WellPaired(all) {
      assert PairedAt(all, 0) && PairedAt(all, 1);
      assert PairedAt(pair, 0) && PairedAt(pair, 1);
      WellPairedCut(pair, rest);
    } else if && "" !in ToolUseIds(calls) && "" !in ToolResultIds(answers) && Distinct(ToolUseIds(calls))
              && IdsMatch(ToolUseIds(calls), ToolResultIds(answers)) && WellPaired(rest) {
      assert PairedAt(pair, 0) && PairedAt(pair, 1);
      WellPairedAppend(pair, rest);
    }
  }

  lemma ImageMessageIsWall(parts: seq<Part>, rest: seq<Message>)
    requires parts != []
    ensures WellPaired([Message(User, Blocks(EncodeParts(parts)))] + rest) <==> WellPaired(rest)
  {
    PartsCarryNoIds(parts);
    var wall := Message(User, Blocks(EncodeParts(parts)));
    WellPairedAroundWall([], wall, rest);
    assert [] + [wall] + rest == [wall] + rest;
  }

  lemma EncodeHeadCarriesNoResults(turns: History, placement: Placement)
    requires turns != [] && !turns[0].ResultTurn?
    ensures var wire := Encode(turns, placement);
            wire != [] && (wire[0].role == User ==> ToolResultIds(wire[0]) == [])
  {
    if turns[0].UserTurn? && turns[0].input.Parts? {
      PartsCarryNoIds(turns[0].input.parts);
    }
  }

  /** An assistant turn followed by its run of results, before any relocated images. */
  lemma PairedAfterCalls(items: seq<Item>, batch: History, rest: seq<Message>, placement: Placement)
    requires AllResults(batch) && batch != []
    ensures var calls, answers := CallIds(items), AnsweredIds(batch);
            WellPaired([EncodeTurn(AssistantTurn(items)), Message(User, Blocks(EncodeResults(batch, placement)))] + rest) <==>
              && "" !in calls && "" !in answers && Distinct(calls) && IdsMatch(calls, answers) && WellPaired(rest)
  {
    ItemsCarryCalls(items);
    ResultsCarryAnswers(batch, placement);
    PairedAfterPair(EncodeTurn(AssistantTurn(items)), Message(User, Blocks(EncodeResults(batch, placement))), rest);
  }

  lemma PairedAfterFlush(items: seq<Item>, batch: History, rest: seq<Message>, placement: Placement)
    requires AllResults(batch) && batch != []
    ensures var calls, answers := CallIds(items), AnsweredIds(batch);
            var flushed := Flushed(EncodeResults(batch, placement), EncodeParts(DeferredParts(batch, placement)));
            WellPaired([EncodeTurn(AssistantTurn(items))] + (flushed + rest)) <==>
              && "" !in calls && "" !in answers && Distinct(calls) && IdsMatch(calls, answers) && WellPaired(rest)
  {
    var images := DeferredParts(batch, placement);
    var call := EncodeTurn(AssistantTurn(items));
    var answer := Message(User, Blocks(EncodeResults(batch, placement)));
    var flushed := Flushed(EncodeResults(batch, placement), EncodeParts(images));
    PartsProject(images);
    ResultsCarryAnswers(batch, placement);
    if images == [] {
      assert [call] + (flushed + rest) == [call, answer] + rest;
      PairedAfterCalls(items, batch, rest, placement);
    } else {
      var moved := Message(User, Blocks(EncodeParts(images)));
      assert [call] + (flushed + rest) == [call, answer] + ([moved] + rest);
      PairedAfterCalls(items, batch, [moved] + rest, placement);
      ImageMessageIsWall(images, rest);
    }
  }

  lemma PairedAfterUser(input: Input, rest: seq<Message>)
    ensures WellPaired([EncodeTurn(UserTurn(input))] + rest) <==> WellPaired(rest)
  {
    if input.Parts? {
      PartsCarryNoIds(input.parts);
    }
    var wall := EncodeTurn(UserTurn(input));
    WellPairedAroundWall([], wall, rest);
    assert [] + [wall] + rest == [wall] + rest;
  }

  lemma PairedAfterPlainAssistant(items: seq<Item>, tail: History, placement: Placement)
    requires tail != [] ==> !tail[0].ResultTurn?
    ensures WellPaired([EncodeTurn(AssistantTurn(items))] + Encode(tail, placement)) <==>
      CallIds(items) == [] && WellPaired(Encode(tail, placement))
  {
    ItemsCarryCalls(items);
    if tail != [] {
      EncodeHeadCarriesNoResults(tail, placement);
    }
    PairedAfterAssistant(EncodeTurn(AssistantTurn(items)), Encode(tail, placement));
  }

  lemma UnaskedResultsRejected(batch: History, rest: seq<Message>, placement: Placement)
    requires AllResults(batch) && batch != []
    ensures !WellPaired(Flushed(EncodeResults(batch, placement), EncodeParts(DeferredParts(batch, placement))) + rest)
  {
    ResultsCarryAnswers(batch, placement);
    var wire := Flushed(EncodeResults(batch, placement), EncodeParts(DeferredParts(batch, placement))) + rest;
    assert wire[0] == Message(User, Blocks(EncodeResults(batch, placement)));
    assert !PairedAt(wire, 0);
  }

  /** The encoded wire is accepted exactly when every call was answered by the run right after it. */
  lemma {:induction false} EncodedIsPairedIffAnswered(turns: History, placement: Placement)
    ensures WellPaired(Encode(turns, placement)) <==> Answered(turns)
    decreases |turns|
  {
    if turns != [] {
      var tail := turns[1..];
      match turns[0]
      case UserTurn(input) =>
        EncodedIsPairedIffAnswered(tail, placement);
        PairedAfterUser(input, Encode(tail, placement));
      case ResultTurn(_, _, _, _) =>
        var n := RunLength(turns);
        UnaskedResultsRejected(turns[..n], Encode(turns[n..], placement), placement);
      case AssistantTurn(items) =>
        var n := RunLength(tail);
        EncodedIsPairedIffAnswered(tail[n..], placement);
        if n > 0 {
          PairedAfterFlush(items, tail[..n], Encode(tail[n..], placement), placement);
          assert AnsweredIds(tail[..n]) != [];
        } else {
          assert tail[0..] == tail;
          PairedAfterPlainAssistant(items, tail, placement);
        }
    }
  }
}
