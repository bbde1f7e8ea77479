/** What the Anthropic wire carries, read off the history itself: nothing is lost, moved apart or made up. */
module AnthropicConservation {
  import opened Wrappers
  import opened Wire
  import opened Neutral
  import opened AnthropicCodec

  // ---- Single parts and items ----

  /** Every part keeps its place and its content; the media type of a linked image is not sent. */
  lemma {:induction false} PartsKeepTheirPlaces(parts: seq<Part>, i: nat)
    requires i < |parts|
    ensures |EncodeParts(parts)| == |parts|
    ensures match parts[i]
            case TextPart(text) => EncodeParts(parts)[i] == Text(text)
            case DataImage(mediaType, data) => EncodeParts(parts)[i] == Image(Base64Source(mediaType, data))
            case UrlImage(_, url) => EncodeParts(parts)[i] == Image(UrlSource(url))
  {
    if i > 0 {
      PartsKeepTheirPlaces(parts[1..], i - 1);
    } else if |parts| > 1 {
      PartsKeepTheirPlaces(parts[1..], 0);
    }
  }

  /** The block says what the item said; of redacted thinking only the opaque data is left. */
  predicate ShowsItem(block: Block, item: Item) {
    match item
    case TextItem(text) => block == Text(text)
    case ThinkingItem(thinking, signature, redacted, encrypted) =>
      if redacted then block == RedactedThinking(if encrypted.Some? then encrypted.value else "")
      else block == Thinking(thinking, signature, encrypted)
    case CallItem(id, name, arguments, _, _) => block == ToolUse(Some(id), name, arguments)
  }

  /** An assistant turn sends its items in order, save empty texts and partial calls. */
  lemma {:induction false} AssistantKeepsItems(items: seq<Item>, sent: Item -> bool)
    requires forall item :: sent(item) <==>
      item.ThinkingItem? || (item.TextItem? && item.text != "") || (item.CallItem? && !item.partial)
    ensures EncodeTurn(AssistantTurn(items)).role == Assistant
    ensures EncodeTurn(AssistantTurn(items)).content.Blocks?
    ensures var blocks, kept := EncodeTurn(AssistantTurn(items)).content.blocks, Filter(items, sent);
            |blocks| == |kept| && forall i :: 0 <= i < |kept| ==> ShowsItem(blocks[i], kept[i])
  {
    if items != [] {
      AssistantKeepsItems(items[1..], sent);
      var first, blocks, kept := EncodeItem(items[0]), EncodeItems(items), Filter(items, sent);
      assert sent(items[0]) <==> first.Some?;
      if first.Some? {
        assert blocks[0] == first.value && blocks[1..] == EncodeItems(items[1..]);
        assert kept[0] == items[0] && kept[1..] == Filter(items[1..], sent);
        forall i | 0 <= i < |kept| ensures ShowsItem(blocks[i], kept[i]) {
          if i > 0 {
            assert blocks[i] == blocks[1..][i - 1] && kept[i] == kept[1..][i - 1];
          }
        }
      }
    }
  }

  lemma UserKeepsInput(input: Input)
    ensures EncodeTurn(UserTurn(input)).role == User
    ensures EncodeTurn(UserTurn(input)).content ==
      match input case PlainInput(text) => Plain(text) case Parts(parts) => Blocks(EncodeParts(parts))
  {
  }

  lemma {:induction false} TextsAreKept(parts: seq<Part>, isText: Part -> bool)
    requires forall part :: isText(part) <==> part.TextPart?
    ensures TextsOf(parts) == Filter(parts, isText)
    ensures ImagesOf(parts) == [] <==> |Filter(parts, isText)| == |parts|
    ensures ImagesOf(parts) == [] ==> TextsOf(parts) == parts
    ensures |Filter(parts, isText)| <= |parts|
  {
    if parts != [] {
      TextsAreKept(parts[1..], isText);
    }
  }

  lemma {:induction false} ImagesAreMoved(parts: seq<Part>, isImage: Part -> bool)
    requires forall part :: isImage(part) <==> !part.TextPart?
    ensures ImagesOf(parts) == Filter(parts, isImage)
  {
    if parts != [] {
      ImagesAreMoved(parts[1..], isImage);
    }
  }

  // ---- A run of results ----

  /** The block answers the turn's call with all of its text; its images stay only under Native. */
  ghost predicate CarriesResult(block: Block, turn: Turn, placement: Placement, isText: Part -> bool)
    requires turn.ResultTurn?
  {
    && block.ToolResult? && block.toolUseId == Some(turn.callId) && block.isError == turn.isError
    && match turn.input
       case PlainInput(text) => block.content == Plain(text)
       case Parts(parts) =>
         var texts := Filter(parts, isText);
         if placement == Native || |texts| == |parts| then block.content == Blocks(EncodeParts(parts))
         else if texts == [] then block.content == Plain("")
         else block.content == Blocks(EncodeParts(texts))
  }

  lemma ResultIsCarried(turn: Turn, placement: Placement, isText: Part -> bool)
    requires turn.ResultTurn? && forall part :: isText(part) <==> part.TextPart?
    ensures CarriesResult(EncodeResult(turn, placement), turn, placement, isText)
  {
    if turn.input.Parts? {
      TextsAreKept(turn.input.parts, isText);
    }
  }

  lemma {:induction false} ResultsAt(batch: History, placement: Placement, i: nat)
    requires AllResults(batch) && i < |batch|
    ensures |EncodeResults(batch, placement)| == |batch|
    ensures EncodeResults(batch, placement)[i] == EncodeResult(batch[i], placement)
  {
    if i > 0 {
      ResultsAt(batch[1..], placement, i - 1);
    } else if |batch| > 1 {
      ResultsAt(batch[1..], placement, 0);
    }
  }

  /** A run of results becomes one user message with one block per result, in order, each with its own text. */
  lemma ResultsKeepTheirText(turns: History, placement: Placement, isText: Part -> bool)
    requires turns != [] && turns[0].ResultTurn? && forall part :: isText(part) <==> part.TextPart?
    ensures Encode(turns, placement) != []
    ensures var m := Encode(turns, placement)[0];
            && m.role == User && m.content.Blocks? && |m.content.blocks| == RunLength(turns)
            && forall i :: 0 <= i < RunLength(turns) ==> CarriesResult(m.content.blocks[i], turns[i], placement, isText)
  {
    var n := RunLength(turns);
    ResultsAt(turns[..n], placement, 0);
    forall i | 0 <= i < n ensures CarriesResult(EncodeResults(turns[..n], placement)[i], turns[i], placement, isText) {
      ResultsAt(turns[..n], placement, i);
      ResultIsCarried(turns[i], placement, isText);
    }
  }

  function PartsIn(input: Input): seq<Part> {
    if input.Parts? then input.parts else []
  }

  /** The images of each result that has some, in order, each group followed by the caption naming its call. */
  ghost function MovedParts(batch: History, isImage: Part -> bool): seq<Part>
    requires AllResults(batch)
  {
    if batch == [] then []
    else
      var images := Filter(PartsIn(batch[0].input), isImage);
      (if images == [] then []
       else images + [TextPart("The preceding images belong to tool result " + batch[0].callId + ".")])
      + MovedParts(batch[1..], isImage)
  }

  lemma {:induction false} DeferredAreMoved(batch: History, isImage: Part -> bool)
    requires AllResults(batch) && forall part :: isImage(part) <==> !part.TextPart?
    ensures DeferredParts(batch, AsUser) == MovedParts(batch, isImage)
    ensures DeferredParts(batch, Native) == []
  {
    if batch != [] {
      ImagesAreMoved(PartsIn(batch[0].input), isImage);
      DeferredAreMoved(batch[1..], isImage);
    }
  }

  /** After the results come their images, under AsUser and if there are any, in one message; then the rest. */
  lemma ImagesFollowTheRun(turns: History, placement: Placement, isImage: Part -> bool)
    requires turns != [] && turns[0].ResultTurn? && forall part :: isImage(part) <==> !part.TextPart?
    ensures Encode(turns, placement) != []
    ensures var n := RunLength(turns);
            var moved := MovedParts(turns[..n], isImage);
            Encode(turns, placement)[1..] ==
              (if placement == AsUser && moved != [] then [Message(User, Blocks(EncodeParts(moved)))] else [])
              + Encode(turns[n..], placement)
  {
    var batch := turns[..RunLength(turns)];
    DeferredAreMoved(batch, isImage);
    ResultsAt(batch, placement, 0);
    FlushedThen(EncodeResults(batch, placement), DeferredParts(batch, placement), Encode(turns[RunLength(turns)..], placement));
    hide DeferredParts, MovedParts, EncodeResults, EncodeParts, Flushed;
  }

  lemma FlushedThen(results: seq<Block>, moved: seq<Part>, rest: seq<Message>)
    requires results != []
    ensures (Flushed(results, EncodeParts(moved)) + rest)[1..]
         == (if moved != [] then [Message(User, Blocks(EncodeParts(moved)))] else []) + rest
  {
    var first := [Message(User, Blocks(results))];
    var second := if moved == [] then [] else [Message(User, Blocks(EncodeParts(moved)))];
    assert Flushed(results, EncodeParts(moved)) == first + second;
    assert (first + second + rest)[1..] == second + rest;
  }

  // ---- Runs anywhere in a history ----

  /** Between two turns that are not both results a history is encoded piece by piece. */
  lemma {:induction false} EncodeSplits(before: History, rest: History, placement: Placement)
    requires before != [] && rest != [] ==> !before[|before| - 1].ResultTurn? || !rest[0].ResultTurn?
    ensures Encode(before + rest, placement) == Encode(before, placement) + Encode(rest, placement)
    decreases |before|
  {
    var all := before + rest;
    if before == [] {
      assert all == rest;
    } else if rest == [] {
      assert all == before;
    } else if before[0].ResultTurn? {
      var n := RunLength(before);
      RunBefore(before, rest);
      assert all[..n] == before[..n] && all[n..] == before[n..] + rest;
      EncodeSplits(before[n..], rest, placement);
      AppendAssociates(Flushed(EncodeResults(before[..n], placement), EncodeParts(DeferredParts(before[..n], placement))),
                       Encode(before[n..], placement), Encode(rest, placement));
    } else {
      assert all[0] == before[0] && all[1..] == before[1..] + rest;
      EncodeSplits(before[1..], rest, placement);
      AppendAssociates([EncodeTurn(before[0])], Encode(before[1..], placement), Encode(rest, placement));
    }
  }

  lemma {:induction false} RunBefore(before: History, rest: History)
    requires before != [] && rest != [] && (!before[|before| - 1].ResultTurn? || !rest[0].ResultTurn?)
    ensures RunLength(before + rest) == RunLength(before)
  {
    var all := before + rest;
    assert all[0] == before[0] && all[1..] == before[1..] + rest;
    if before[0].ResultTurn? {
      if |before| == 1 {
        assert before[1..] + rest == rest;
      } else {
        RunBefore(before[1..], rest);
      }
    }
  }

  // ---- Whole histories: every image arrives once, in order ----

  function HistoryParts(turns: History): seq<Part> {
    if turns == [] then []
    else (if turns[0].AssistantTurn? then [] else PartsIn(turns[0].input)) + HistoryParts(turns[1..])
  }

  /** A block, or the blocks inside it when it is a tool result. */
  function Opened(block: Block): seq<Block> {
    if block.ToolResult? then (if block.content.Blocks? then block.content.blocks else []) else [block]
  }

  function OpenedAll(blocks: seq<Block>): seq<Block> {
    if blocks == [] then [] else Opened(blocks[0]) + OpenedAll(blocks[1..])
  }

  function WireBlocks(wire: seq<Message>): seq<Block> {
    if wire == [] then [] else OpenedAll(BlocksOf(wire[0])) + WireBlocks(wire[1..])
  }

  lemma {:induction false} WireBlocksAppend(a: seq<Message>, b: seq<Message>)
    ensures WireBlocks(a + b) == WireBlocks(a) + WireBlocks(b)
  {
    if a == [] {
      assert a + b == b;
    } else {
      WireBlocksAppend(a[1..], b);
      assert (a + b)[0] == a[0] && (a + b)[1..] == a[1..] + b;
      hide OpenedAll;
      AppendAssociates(OpenedAll(BlocksOf(a[0])), WireBlocks(a[1..]), WireBlocks(b));
    }
  }

  lemma {:induction false} PlainBlocksOpen(blocks: seq<Block>)
    requires forall b :: b in blocks ==> !b.ToolResult?
    ensures OpenedAll(blocks) == blocks
  {
    if blocks != [] {
      assert blocks[0] in blocks;
      PlainBlocksOpen(blocks[1..]);
    }
  }

  lemma {:induction false} EncodedPartsArePlain(parts: seq<Part>)
    ensures forall b :: b in EncodeParts(parts) ==> b.Text? || b.Image?
  {
    if parts != [] {
      EncodedPartsArePlain(parts[1..]);
    }
  }

  lemma {:induction false} ImageBlocks(parts: seq<Part>, isImage: Part -> bool, shown: Block -> bool)
    requires forall part :: isImage(part) <==> !part.TextPart?
    requires forall b :: shown(b) <==> b.Image?
    ensures Filter(EncodeParts(parts), shown) == EncodeParts(Filter(parts, isImage))
  {
    if parts != [] {
      ImageBlocks(parts[1..], isImage, shown);
      assert EncodeParts(parts)[0] == EncodePart(parts[0]) && EncodeParts(parts)[1..] == EncodeParts(parts[1..]);
      if isImage(parts[0]) {
        var kept := Filter(parts, isImage);
        assert kept[0] == parts[0] && kept[1..] == Filter(parts[1..], isImage);
      }
    }
  }

  lemma {:induction false} FilterTwice(parts: seq<Part>, isImage: Part -> bool)
    ensures Filter(Filter(parts, isImage), isImage) == Filter(parts, isImage)
  {
    if parts != [] {
      FilterTwice(parts[1..], isImage);
      if isImage(parts[0]) {
        var kept := Filter(parts, isImage);
        assert kept[0] == parts[0] && kept[1..] == Filter(parts[1..], isImage);
      }
    }
  }

  lemma {:induction false} ItemsShowNoImage(items: seq<Item>)
    ensures forall b :: b in EncodeItems(items) ==> !b.Image? && !b.ToolResult?
  {
    if items != [] {
      ItemsShowNoImage(items[1..]);
    }
  }

  lemma NothingKept<T>(items: seq<T>, keep: T -> bool)
    requires forall x :: x in items ==> !keep(x)
    ensures Filter(items, keep) == []
  {
    FilterAll(items, keep);
  }

  /** One user or assistant turn shows exactly its own images. */
  lemma TurnShowsImages(turn: Turn, isImage: Part -> bool, shown: Block -> bool)
    requires !turn.ResultTurn?
    requires forall part :: isImage(part) <==> !part.TextPart?
    requires forall b :: shown(b) <==> b.Image?
    ensures Filter(OpenedAll(BlocksOf(EncodeTurn(turn))), shown) ==
            EncodeParts(Filter(if turn.AssistantTurn? then [] else PartsIn(turn.input), isImage))
  {
    match turn
    case UserTurn(input) =>
      if input.Parts? {
        EncodedPartsArePlain(input.parts);
        PlainBlocksOpen(EncodeParts(input.parts));
        ImageBlocks(input.parts, isImage, shown);
      }
    case AssistantTurn(items) =>
      ItemsShowNoImage(items);
      PlainBlocksOpen(EncodeItems(items));
      NothingKept(EncodeItems(items), shown);
  }

  /** What stays in a result and what is moved out of it are together its images. */
  lemma ResultSharesImages(turn: Turn, placement: Placement, isImage: Part -> bool, shown: Block -> bool)
    requires turn.ResultTurn?
    requires forall part :: isImage(part) <==> !part.TextPart?
    requires forall b :: shown(b) <==> b.Image?
    ensures var stays := Filter(Opened(EncodeResult(turn, placement)), shown);
            var moved := Filter(Deferred(turn, placement), isImage);
            var own := EncodeParts(Filter(PartsIn(turn.input), isImage));
            if placement == AsUser then stays == [] && EncodeParts(moved) == own
            else stays == own && Deferred(turn, placement) == []
  {
    if turn.input.Parts? {
      var parts := turn.input.parts;
      ImagesAreMoved(parts, isImage);
      ImageBlocks(parts, isImage, shown);
      if placement == AsUser {
        if ImagesOf(parts) == [] {
        } else {
          FilterTwice(parts, isImage);
          FilterLast(ImagesOf(parts), TextPart(ImageCaption(turn.callId)), isImage);
          TextsShowNoImage(parts, isImage);
          ImageBlocks(TextsOf(parts), isImage, shown);
        }
      }
    }
  }

  lemma {:induction false} TextsShowNoImage(parts: seq<Part>, isImage: Part -> bool)
    requires forall part :: isImage(part) <==> !part.TextPart?
    ensures Filter(TextsOf(parts), isImage) == []
  {
    if parts != [] {
      TextsShowNoImage(parts[1..], isImage);
    }
  }

  lemma {:induction false} RunSharesImages(batch: History, placement: Placement, isImage: Part -> bool, shown: Block -> bool)
    requires AllResults(batch)
    requires forall part :: isImage(part) <==> !part.TextPart?
    requires forall b :: shown(b) <==> b.Image?
    ensures var stays := Filter(OpenedAll(EncodeResults(batch, placement)), shown);
            var moved := EncodeParts(Filter(DeferredParts(batch, placement), isImage));
            var own := EncodeParts(Filter(HistoryParts(batch), isImage));
            if placement == AsUser then stays == [] && moved == own
            else stays == own && DeferredParts(batch, placement) == []
  {
    if batch != [] {
      var turn, rest := batch[0], batch[1..];
      RunSharesImages(rest, placement, isImage, shown);
      ResultSharesImages(turn, placement, isImage, shown);
      assert EncodeResults(batch, placement)[0] == EncodeResult(turn, placement);
      assert EncodeResults(batch, placement)[1..] == EncodeResults(rest, placement);
      FilterAppend(Opened(EncodeResult(turn, placement)), OpenedAll(EncodeResults(rest, placement)), shown);
      FilterAppend(Deferred(turn, placement), DeferredParts(rest, placement), isImage);
      FilterAppend(PartsIn(turn.input), HistoryParts(rest), isImage);
      EncodePartsAppend(Filter(Deferred(turn, placement), isImage), Filter(DeferredParts(rest, placement), isImage));
      EncodePartsAppend(Filter(PartsIn(turn.input), isImage), Filter(HistoryParts(rest), isImage));
      hide EncodeResult, Deferred, Opened, Filter, EncodeParts;
    }
  }

  lemma FlushShowsImages(batch: History, placement: Placement, isImage: Part -> bool, shown: Block -> bool)
    requires AllResults(batch) && batch != []
    requires forall part :: isImage(part) <==> !part.TextPart?
    requires forall b :: shown(b) <==> b.Image?
    ensures var flushed := Flushed(EncodeResults(batch, placement), EncodeParts(DeferredParts(batch, placement)));
            Filter(WireBlocks(flushed), shown) == EncodeParts(Filter(HistoryParts(batch), isImage))
  {
    var results, moved := EncodeResults(batch, placement), DeferredParts(batch, placement);
    RunSharesImages(batch, placement, isImage, shown);
    EncodedPartsArePlain(moved);
    PlainBlocksOpen(EncodeParts(moved));
    ImageBlocks(moved, isImage, shown);
    FilterAppend(OpenedAll(results), EncodeParts(moved), shown);
    FlushOpens(results, EncodeParts(moved));
    hide Filter, OpenedAll, EncodeResults, DeferredParts, HistoryParts;
  }

  lemma FlushOpens(results: seq<Block>, images: seq<Block>)
    requires OpenedAll(images) == images
    ensures WireBlocks(Flushed(results, images)) == OpenedAll(results) + images
  {
    var a, b := Message(User, Blocks(results)), Message(User, Blocks(images));
    assert [a, b][1..] == [b] && [b][1..] == [] && [a][1..] == [];
    assert Flushed(results, images) == (if results == [] then [] else [a]) + (if images == [] then [] else [b]);
    assert WireBlocks([]) == [] && WireBlocks([a]) == OpenedAll(results) + [] && WireBlocks([b]) == images + [];
    WireBlocksAppend(if results == [] then [] else [a], if images == [] then [] else [b]);
  }

  lemma {:induction false} HistoryPartsAppend(a: History, b: History)
    ensures HistoryParts(a + b) == HistoryParts(a) + HistoryParts(b)
  {
    if a == [] {
      assert a + b == b;
    } else {
      HistoryPartsAppend(a[1..], b);
      assert (a + b)[0] == a[0] && (a + b)[1..] == a[1..] + b;
      hide PartsIn;
      AppendAssociates(if a[0].AssistantTurn? then [] else PartsIn(a[0].input), HistoryParts(a[1..]), HistoryParts(b));
    }
  }

  /** Under both placements the wire shows every image of the history once, in the order of the history. */
  lemma {:induction false} ImagesAreConserved(turns: History, placement: Placement, isImage: Part -> bool, shown: Block -> bool)
    requires forall part :: isImage(part) <==> !part.TextPart?
    requires forall b :: shown(b) <==> b.Image?
    ensures Filter(WireBlocks(Encode(turns, placement)), shown) == EncodeParts(Filter(HistoryParts(turns), isImage))
    decreases |turns|
  {
    if turns != [] {
      var n := if turns[0].ResultTurn? then RunLength(turns) else 1;
      var head, rest := turns[..n], turns[n..];
      assert turns == head + rest;
      ImagesAreConserved(rest, placement, isImage, shown);
      HistoryPartsAppend(head, rest);
      FilterAppend(HistoryParts(head), HistoryParts(rest), isImage);
      EncodePartsAppend(Filter(HistoryParts(head), isImage), Filter(HistoryParts(rest), isImage));
      var first: seq<Message>;
      if turns[0].ResultTurn? {
        first := Flushed(EncodeResults(head, placement), EncodeParts(DeferredParts(head, placement)));
        FlushShowsImages(head, placement, isImage, shown);
      } else {
        first := [EncodeTurn(turns[0])];
        OneTurn(turns[0], isImage, shown);
        assert head == [turns[0]];
      }
      WireBlocksAppend(first, Encode(rest, placement));
      FilterAppend(WireBlocks(first), WireBlocks(Encode(rest, placement)), shown);
      hide Filter, WireBlocks, HistoryParts, EncodeParts, Flushed, EncodeTurn;
    }
  }

  lemma OneTurn(turn: Turn, isImage: Part -> bool, shown: Block -> bool)
    requires !turn.ResultTurn?
    requires forall part :: isImage(part) <==> !part.TextPart?
    requires forall b :: shown(b) <==> b.Image?
    ensures Filter(WireBlocks([EncodeTurn(turn)]), shown) == EncodeParts(Filter(HistoryParts([turn]), isImage))
  {
    TurnShowsImages(turn, isImage, shown);
    var m := EncodeTurn(turn);
    assert [m][1..] == [] && [turn][1..] == [];
    assert WireBlocks([m]) == OpenedAll(BlocksOf(m)) + [];
    var own := if turn.AssistantTurn? then [] else PartsIn(turn.input);
    assert HistoryParts([turn]) == own + [];
    assert OpenedAll(BlocksOf(m)) + [] == OpenedAll(BlocksOf(m)) && own + [] == own;
    hide EncodeTurn, OpenedAll, Filter;
  }

  // ---- Projecting back: every block of a message ends up in one turn, in order ----

  predicate PartBlock(block: Block) {
    block.Text? || block.Image?
  }

  predicate PartBlocks(blocks: seq<Block>) {
    forall b :: b in blocks ==> PartBlock(b)
  }

  /** A block that a user message can be projected with. */
  predicate UserBlock(block: Block) {
    PartBlock(block) ||
    (block.ToolResult? && block.toolUseId.Some? && (block.content.Blocks? ==> PartBlocks(block.content.blocks)))
  }

  predicate UserBlocks(blocks: seq<Block>) {
    forall b :: b in blocks ==> UserBlock(b)
  }

  /** A block that an assistant message can be projected with. */
  predicate AssistantBlock(block: Block) {
    block.Text? || block.Thinking? || block.RedactedThinking? || (block.ToolUse? && block.id.Some?)
  }

  predicate AssistantBlocks(blocks: seq<Block>) {
    forall b :: b in blocks ==> AssistantBlock(b)
  }

  /** The blocks a user or result turn stands for. */
  function TurnBlocks(turn: Turn): seq<Block> {
    match turn
    case UserTurn(input) => EncodeParts(PartsIn(input))
    case ResultTurn(callId, _, isError, input) => [ToolResult(Some(callId), EncodeInput(input), isError)]
    case AssistantTurn(_) => []
  }

  function HistoryBlocks(turns: History): seq<Block> {
    if turns == [] then [] else TurnBlocks(turns[0]) + HistoryBlocks(turns[1..])
  }

  lemma {:induction false} HistoryBlocksAppend(a: History, b: History)
    ensures HistoryBlocks(a + b) == HistoryBlocks(a) + HistoryBlocks(b)
  {
    if a == [] {
      assert a + b == b;
    } else {
      HistoryBlocksAppend(a[1..], b);
      assert (a + b)[0] == a[0] && (a + b)[1..] == a[1..] + b;
      hide TurnBlocks;
      AppendAssociates(TurnBlocks(a[0]), HistoryBlocks(a[1..]), HistoryBlocks(b));
    }
  }

  lemma {:induction false} PartsComeBack(blocks: seq<Block>)
    ensures ProjectParts(blocks).Some? <==> PartBlocks(blocks)
    ensures ProjectParts(blocks).Some? ==> EncodeParts(ProjectParts(blocks).value) == blocks
  {
    if blocks != [] {
      PartsComeBack(blocks[1..]);
      assert blocks == [blocks[0]] + blocks[1..];
      assert PartBlocks(blocks) <==> PartBlock(blocks[0]) && PartBlocks(blocks[1..]);
      if ProjectParts(blocks).Some? {
        var parts := ProjectParts(blocks).value;
        assert EncodePart(parts[0]) == blocks[0] && parts[1..] == ProjectParts(blocks[1..]).value;
      }
    }
  }

  lemma ResultComesBack(block: Block)
    requires block.ToolResult?
    ensures ProjectResult(block).Some? <==> UserBlock(block)
    ensures ProjectResult(block).Some? ==>
      var turn := ProjectResult(block).value;
      turn.ResultTurn? && turn.toolName == "" && TurnBlocks(turn) == [block]
  {
    if block.content.Blocks? {
      PartsComeBack(block.content.blocks);
    }
  }

  predicate UserSide(turn: Turn) {
    (turn.ResultTurn? && turn.toolName == "") || (turn.UserTurn? && turn.input.Parts? && turn.input.parts != [])
  }

  /** Turns of a user message: results without a tool name, and runs of other blocks that are as long as possible. */
  predicate Grouped(turns: History) {
    && (forall t :: t in turns ==> UserSide(t))
    && (forall i :: 0 <= i < |turns| - 1 ==> turns[i].ResultTurn? || turns[i + 1].ResultTurn?)
  }

  lemma PendingComesBack(pending: seq<Block>)
    ensures ProjectPending(pending).Some? <==> PartBlocks(pending)
    ensures ProjectPending(pending).Some? ==>
      var turns := ProjectPending(pending).value;
      HistoryBlocks(turns) == pending && Grouped(turns) && |turns| <= 1
  {
    PartsComeBack(pending);
    if ProjectPending(pending).Some? && pending != [] {
      var turn := UserTurn(Parts(ProjectParts(pending).value));
      assert [turn][1..] == [];
      assert HistoryBlocks([turn]) == TurnBlocks(turn) + [];
    }
  }

  lemma GroupedAroundResult(flushed: History, result: Turn, rest: History)
    requires Grouped(flushed) && Grouped(rest) && |flushed| <= 1 && result.ResultTurn? && result.toolName == ""
    ensures Grouped(flushed + [result] + rest)
  {
    var all, n := flushed + [result] + rest, |flushed|;
    hide UserSide;
    assert UserSide(result) by {
      SideOfResult(result);
    }
    forall i | 0 <= i < |all| - 1 ensures all[i].ResultTurn? || all[i + 1].ResultTurn? {
      if i <= n {
        assert all[n] == result;
      } else {
        assert all[i] == rest[i - n - 1] && all[i + 1] == rest[i - n];
      }
    }
  }

  lemma SideOfResult(result: Turn)
    requires result.ResultTurn? && result.toolName == ""
    ensures UserSide(result)
  {
  }

  lemma BlocksAroundResult(flushed: History, result: Turn, rest: History)
    ensures HistoryBlocks(flushed + [result] + rest) == HistoryBlocks(flushed) + TurnBlocks(result) + HistoryBlocks(rest)
  {
    hide TurnBlocks;
    HistoryBlocksAppend(flushed + [result], rest);
    HistoryBlocksAppend(flushed, [result]);
    assert [result][1..] == [];
    assert HistoryBlocks([result]) == TurnBlocks(result) + [] == TurnBlocks(result);
    hide HistoryBlocks;
  }

  lemma {:induction false} UserBlocksComeBack(pending: seq<Block>, blocks: seq<Block>)
    requires forall b :: b in pending ==> !b.ToolResult?
    ensures ProjectUserBlocks(pending, blocks).Some? <==> PartBlocks(pending) && UserBlocks(blocks)
    ensures ProjectUserBlocks(pending, blocks).Some? ==>
      var turns := ProjectUserBlocks(pending, blocks).value;
      HistoryBlocks(turns) == pending + blocks && Grouped(turns)
    decreases |blocks|
  {
    if blocks == [] {
      PendingComesBack(pending);
      assert pending + blocks == pending;
    } else {
      var rest := blocks[1..];
      assert blocks == [blocks[0]] + rest;
      assert UserBlocks(blocks) <==> UserBlock(blocks[0]) && UserBlocks(rest);
      if blocks[0].ToolResult? {
        PendingComesBack(pending);
        ResultComesBack(blocks[0]);
        UserBlocksComeBack([], rest);
        if ProjectPending(pending).Some? && ProjectResult(blocks[0]).Some? && ProjectUserBlocks([], rest).Some? {
          AroundResult(pending, blocks[0], rest, ProjectPending(pending).value, ProjectResult(blocks[0]).value,
                       ProjectUserBlocks([], rest).value);
        }
      } else {
        UserBlocksComeBack(pending + [blocks[0]], rest);
        assert PartBlocks(pending + [blocks[0]]) <==> PartBlocks(pending) && PartBlock(blocks[0]);
        assert pending + [blocks[0]] + rest == pending + blocks;
      }
      hide ProjectPending, ProjectResult, UserBlock, PartBlock, UserBlocks, PartBlocks, TurnBlocks, HistoryBlocks, Grouped;
    }
  }

  lemma AroundResult(pending: seq<Block>, block: Block, rest: seq<Block>, flushed: History, result: Turn, after: History)
    requires HistoryBlocks(flushed) == pending && Grouped(flushed) && |flushed| <= 1
    requires result.ResultTurn? && result.toolName == "" && TurnBlocks(result) == [block]
    requires HistoryBlocks(after) == [] + rest && Grouped(after)
    ensures HistoryBlocks(flushed + [result] + after) == pending + ([block] + rest) && Grouped(flushed + [result] + after)
  {
    BlocksAroundResult(flushed, result, after);
    GroupedAroundResult(flushed, result, after);
    hide TurnBlocks, HistoryBlocks, Grouped;
    assert [] + rest == rest;
    AppendAssociates(pending, [block], rest);
  }

  lemma {:induction false} ItemsComeBack(blocks: seq<Block>)
    ensures ProjectItems(blocks).Some? <==> AssistantBlocks(blocks)
    ensures ProjectItems(blocks).Some? ==>
      var items := ProjectItems(blocks).value;
      |items| == |blocks| && forall i :: 0 <= i < |items| ==>
        ShowsItem(blocks[i], items[i]) && (items[i].CallItem? ==> !items[i].partial)
  {
    if blocks != [] {
      ItemsComeBack(blocks[1..]);
      assert blocks == [blocks[0]] + blocks[1..];
      assert AssistantBlocks(blocks) <==> AssistantBlock(blocks[0]) && AssistantBlocks(blocks[1..]);
    }
  }

  /** A message is refused exactly for its role or for a block that its role does not know. */
  lemma ProjectFailsIff(message: Message)
    ensures ProjectMessage(message).None? <==>
      || message.role == OtherRole
      || (message.role == User && !UserBlocks(BlocksOf(message)))
      || (message.role == Assistant && !AssistantBlocks(BlocksOf(message)))
  {
    if message.content.Blocks? {
      ItemsComeBack(message.content.blocks);
      UserBlocksComeBack([], message.content.blocks);
    }
  }

  /** What is projected holds every block of the message, in order; results stand alone, other user blocks in runs. */
  lemma ProjectKeepsBlocks(message: Message)
    requires ProjectMessage(message).Some?
    ensures var turns := ProjectMessage(message).value;
      match (message.role, message.content)
      case (User, Plain(text)) => turns == [UserTurn(PlainInput(text))]
      case (User, Blocks(blocks)) =>
        if blocks == [] then turns == [UserTurn(Parts([]))] else HistoryBlocks(turns) == blocks && Grouped(turns)
      case (Assistant, Plain(text)) => turns == [AssistantTurn([TextItem(text)])]
      case (Assistant, Blocks(blocks)) =>
        && |turns| == 1 && turns[0].AssistantTurn? && |turns[0].items| == |blocks|
        && forall i :: 0 <= i < |blocks| ==>
             ShowsItem(blocks[i], turns[0].items[i]) && (turns[0].items[i].CallItem? ==> !turns[0].items[i].partial)
      case (OtherRole, _) => true
  {
    if message.content.Blocks? {
      ItemsComeBack(message.content.blocks);
      UserBlocksComeBack([], message.content.blocks);
      assert [] + message.content.blocks == message.content.blocks;
    }
  }
}
