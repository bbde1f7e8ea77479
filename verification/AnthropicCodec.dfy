/** Encoding neutral history as Anthropic messages, and projecting such messages back. */
module AnthropicCodec {
  import opened Wrappers
  import opened Wire
  import opened Neutral

  datatype Placement = Native | AsUser

  function ImageCaption(callId: string): string {
    "The preceding images belong to tool result " + callId + "."
  }

  // ---- Encoding ----

  function EncodePart(part: Part): Block {
    match part
    case TextPart(text) => Text(text)
    case DataImage(mediaType, data) => Image(Base64Source(mediaType, data))
    case UrlImage(_, url) => Image(UrlSource(url))
  }

  function EncodeParts(parts: seq<Part>): seq<Block> {
    if parts == [] then [] else [EncodePart(parts[0])] + EncodeParts(parts[1..])
  }

  function EncodeInput(input: Input): Content {
    match input
    case PlainInput(text) => Plain(text)
    case Parts(parts) => Blocks(EncodeParts(parts))
  }

  function EncodeItem(item: Item): Option<Block> {
    match item
    case TextItem(text) => if text == "" then None else Some(Text(text))
    case ThinkingItem(thinking, signature, redacted, encrypted) =>
      if redacted then Some(RedactedThinking(IdText(encrypted)))
      else Some(Thinking(thinking, signature, encrypted))
    case CallItem(id, name, arguments, partial, _) =>
      if partial then None else Some(ToolUse(Some(id), name, arguments))
  }

  function EncodeItems(items: seq<Item>): seq<Block> {
    if items == [] then []
    else
      var first, rest := EncodeItem(items[0]), EncodeItems(items[1..]);
      if first.None? then rest else [first.value] + rest
  }

  function EncodeTurn(turn: Turn): Message
    requires !turn.ResultTurn?
  {
    match turn
    case UserTurn(input) => Message(User, EncodeInput(input))
    case AssistantTurn(items) => Message(Assistant, Blocks(EncodeItems(items)))
  }

  function ImagesOf(parts: seq<Part>): seq<Part> {
    if parts == [] then []
    else if parts[0].TextPart? then ImagesOf(parts[1..])
    else [parts[0]] + ImagesOf(parts[1..])
  }

  function TextsOf(parts: seq<Part>): seq<Part> {
    if parts == [] then []
    else if parts[0].TextPart? then [parts[0]] + TextsOf(parts[1..])
    else TextsOf(parts[1..])
  }

  /** A result's images move out only under AsUser, and only when it has some. */
  function Relocated(input: Input, placement: Placement): seq<Part> {
    if placement == AsUser && input.Parts? then ImagesOf(input.parts) else []
  }

  function Remaining(input: Input, placement: Placement): Input {
    if Relocated(input, placement) == [] then input
    else if TextsOf(input.parts) == [] then PlainInput("")
    else Parts(TextsOf(input.parts))
  }

  /** The parts one result contributes to the deferred image message. */
  function Deferred(turn: Turn, placement: Placement): seq<Part>
    requires turn.ResultTurn?
  {
    var images := Relocated(turn.input, placement);
    if images == [] then [] else images + [TextPart(ImageCaption(turn.callId))]
  }

  function EncodeResult(turn: Turn, placement: Placement): Block
    requires turn.ResultTurn?
  {
    ToolResult(Some(turn.callId), EncodeInput(Remaining(turn.input, placement)), turn.isError)
  }

  function EncodeResults(batch: History, placement: Placement): seq<Block>
    requires AllResults(batch)
  {
    if batch == [] then [] else [EncodeResult(batch[0], placement)] + EncodeResults(batch[1..], placement)
  }

  function DeferredParts(batch: History, placement: Placement): seq<Part>
    requires AllResults(batch)
  {
    if batch == [] then [] else Deferred(batch[0], placement) + DeferredParts(batch[1..], placement)
  }

  /** What a flush emits: all results in one message, then all images in the next. */
  function Flushed(results: seq<Block>, images: seq<Block>): seq<Message> {
    (if results == [] then [] else [Message(User, Blocks(results))])
    + (if images == [] then [] else [Message(User, Blocks(images))])
  }

  /** Reference encoding, batch by batch: a maximal run of results becomes one flush. */
  function Encode(turns: History, placement: Placement): seq<Message>
    decreases |turns|
  {
    if turns == [] then []
    else if turns[0].ResultTurn? then
      var n := RunLength(turns);
      Flushed(EncodeResults(turns[..n], placement), EncodeParts(DeferredParts(turns[..n], placement)))
      + Encode(turns[n..], placement)
    else [EncodeTurn(turns[0])] + Encode(turns[1..], placement)
  }

  /** The reference encoding of what is left, given what is still waiting to be flushed. */
  ghost function Outstanding(results: seq<Block>, images: seq<Block>, rest: History, placement: Placement): seq<Message> {
    var n := RunLength(rest);
    Flushed(results + EncodeResults(rest[..n], placement), images + EncodeParts(DeferredParts(rest[..n], placement)))
    + Encode(rest[n..], placement)
  }

  lemma EncodePartsAppend(a: seq<Part>, b: seq<Part>)
    ensures EncodeParts(a + b) == EncodeParts(a) + EncodeParts(b)
  {
    if a == [] {
      assert a + b == b;
    } else {
      assert (a + b)[1..] == a[1..] + b;
      EncodePartsAppend(a[1..], b);
    }
  }

  lemma OutstandingNothing(rest: History, placement: Placement)
    ensures Outstanding([], [], rest, placement) == Encode(rest, placement)
  {
    var n := RunLength(rest);
    assert EncodeResults(rest[..n], placement) == [] + EncodeResults(rest[..n], placement);
    var images := EncodeParts(DeferredParts(rest[..n], placement));
    assert images == [] + images;
    if n == 0 {
      assert rest[0..] == rest;
    }
  }

  lemma RunStep(rest: History)
    requires rest != [] && rest[0].ResultTurn?
    ensures RunLength(rest) == RunLength(rest[1..]) + 1
    ensures rest[..RunLength(rest)][0] == rest[0]
    ensures rest[..RunLength(rest)][1..] == rest[1..][..RunLength(rest[1..])]
    ensures rest[RunLength(rest)..] == rest[1..][RunLength(rest[1..])..]
  {
  }

  lemma OutstandingResult(results: seq<Block>, images: seq<Block>, rest: History, placement: Placement)
    requires rest != [] && rest[0].ResultTurn?
    ensures Outstanding(results, images, rest, placement)
         == Outstanding(results + [EncodeResult(rest[0], placement)], images + EncodeParts(Deferred(rest[0], placement)),
                        rest[1..], placement)
  {
    RunStep(rest);
    var batch := rest[1..][..RunLength(rest[1..])];
    EncodePartsAppend(Deferred(rest[0], placement), DeferredParts(batch, placement));
    AppendAssociates(results, [EncodeResult(rest[0], placement)], EncodeResults(batch, placement));
    AppendAssociates(images, EncodeParts(Deferred(rest[0], placement)), EncodeParts(DeferredParts(batch, placement)));
  }

  lemma OutstandingTurn(result: seq<Message>, results: seq<Block>, images: seq<Block>, rest: History, placement: Placement)
    requires rest != [] && !rest[0].ResultTurn?
    ensures result + Outstanding(results, images, rest, placement)
         == (result + Flushed(results, images) + [EncodeTurn(rest[0])]) + Outstanding([], [], rest[1..], placement)
  {
    OutstandingNothing(rest[1..], placement);
    assert RunLength(rest) == 0 && rest[0..] == rest && rest[..0] == [];
    assert results + [] == results && images + [] == images;
    var flushed, tail := Flushed(results, images), Encode(rest[1..], placement);
    AppendAssociates(result, flushed, [EncodeTurn(rest[0])] + tail);
    AppendAssociates(result + flushed, [EncodeTurn(rest[0])], tail);
  }

  lemma OutstandingEnd(results: seq<Block>, images: seq<Block>, placement: Placement)
    ensures Outstanding(results, images, [], placement) == Flushed(results, images)
  {
    assert results + [] == results && images + [] == images;
    assert Flushed(results, images) + [] == Flushed(results, images);
  }

  /** One pass with two pending lists, flushed before every other turn and at the end. */
  method EncodeMessages(turns: History, placement: Placement) returns (result: seq<Message>)
    ensures result == Encode(turns, placement)
  {
    result := [];
    var pendingResults: seq<Block> := [];
    var pendingImages: seq<Block> := [];
    assert turns[0..] == turns;
    OutstandingNothing(turns, placement);
    for i := 0 to |turns|
      invariant result + Outstanding(pendingResults, pendingImages, turns[i..], placement) == Encode(turns, placement)
    {
      assert turns[i..][0] == turns[i] && turns[i..][1..] == turns[i + 1..];
      if turns[i].ResultTurn? {
        OutstandingResult(pendingResults, pendingImages, turns[i..], placement);
        pendingResults := pendingResults + [EncodeResult(turns[i], placement)];
        pendingImages := pendingImages + EncodeParts(Deferred(turns[i], placement));
      } else {
        OutstandingTurn(result, pendingResults, pendingImages, turns[i..], placement);
        result := result + Flushed(pendingResults, pendingImages) + [EncodeTurn(turns[i])];
        pendingResults, pendingImages := [], [];
      }
    }
    assert turns[|turns|..] == [];
    OutstandingEnd(pendingResults, pendingImages, placement);
    result := result + Flushed(pendingResults, pendingImages);
  }

  // ---- Projecting back ----

  function ProjectPart(block: Block): Option<Part> {
    match block
    case Text(text) => Some(TextPart(text))
    case Image(Base64Source(mediaType, data)) => Some(DataImage(mediaType, data))
    case Image(UrlSource(url)) => Some(UrlImage("image/png", url))
    case _ => None
  }

  function ProjectParts(blocks: seq<Block>): Option<seq<Part>> {
    if blocks == [] then Some([])
    else
      var first, rest := ProjectPart(blocks[0]), ProjectParts(blocks[1..]);
      if first.None? || rest.None? then None else Some([first.value] + rest.value)
  }

  function ProjectInput(content: Content): Option<Input> {
    match content
    case Plain(text) => Some(PlainInput(text))
    case Blocks(blocks) =>
      var parts := ProjectParts(blocks);
      if parts.None? then None else Some(Parts(parts.value))
  }

  function ProjectItem(block: Block): Option<Item> {
    match block
    case Text(text) => Some(TextItem(text))
    case Thinking(thinking, signature, encrypted) => Some(ThinkingItem(thinking, signature, false, encrypted))
    case RedactedThinking(data) => Some(ThinkingItem("", None, true, Some(data)))
    case ToolUse(Some(id), name, input) => Some(CallItem(id, name, input, false, None))
    case _ => None
  }

  function ProjectItems(blocks: seq<Block>): Option<seq<Item>> {
    if blocks == [] then Some([])
    else
      var first, rest := ProjectItem(blocks[0]), ProjectItems(blocks[1..]);
      if first.None? || rest.None? then None else Some([first.value] + rest.value)
  }

  function ProjectResult(block: Block): Option<Turn>
    requires block.ToolResult?
  {
    var input := ProjectInput(block.content);
    if block.toolUseId.None? || input.None? then None
    else Some(ResultTurn(block.toolUseId.value, "", block.isError, input.value))
  }

  /** The plain blocks collected since the last tool result, as one user turn if there are any. */
  function ProjectPending(pending: seq<Block>): Option<History> {
    var parts := ProjectParts(pending);
    if parts.None? then None
    else if pending == [] then Some([])
    else Some([UserTurn(Parts(parts.value))])
  }

  function Both(a: Option<History>, b: Option<History>): Option<History> {
    if a.None? || b.None? then None else Some(a.value + b.value)
  }

  function ProjectUserBlocks(pending: seq<Block>, blocks: seq<Block>): Option<History>
    decreases |blocks|
  {
    if blocks == [] then ProjectPending(pending)
    else if blocks[0].ToolResult? then
      var result := ProjectResult(blocks[0]);
      Both(Both(ProjectPending(pending), if result.None? then None else Some([result.value])),
           ProjectUserBlocks([], blocks[1..]))
    else ProjectUserBlocks(pending + [blocks[0]], blocks[1..])
  }

  function ProjectMessage(message: Message): Option<History> {
    match message.role
    case Assistant =>
      (match message.content
       case Plain(text) => Some([AssistantTurn([TextItem(text)])])
       case Blocks(blocks) =>
         var items := ProjectItems(blocks);
         if items.None? then None else Some([AssistantTurn(items.value)]))
    case User =>
      (match message.content
       case Plain(text) => Some([UserTurn(PlainInput(text))])
       case Blocks(blocks) =>
         if blocks == [] then Some([UserTurn(Parts([]))]) else ProjectUserBlocks([], blocks))
    case OtherRole => None
  }

  function Project(messages: seq<Message>): Option<History> {
    if messages == [] then Some([])
    else Both(ProjectMessage(messages[0]), Project(messages[1..]))
  }

  /** Walks the wire messages; None stands for the exceptions raised on unsupported shapes. */
  method ProjectMessages(messages: seq<Message>) returns (projected: Option<History>)
    ensures projected == Project(messages)
  {
    var turns: History := [];
    assert messages[0..] == messages;
    BothNothing(Project(messages));
    for i := 0 to |messages|
      invariant Both(Some(turns), Project(messages[i..])) == Project(messages)
    {
      var message := messages[i];
      assert messages[i..][1..] == messages[i + 1..];
      ghost var tail := Project(messages[i + 1..]);
      if message.role == User && message.content.Blocks? && message.content.blocks != [] {
        var blocks := message.content.blocks;
        var pending: seq<Block> := [];
        ghost var before := turns;
        for j := 0 to |blocks|
          invariant before <= turns
          invariant Both(Some(turns), ProjectUserBlocks(pending, blocks[j..]))
                 == Both(Some(before), ProjectUserBlocks([], blocks))
        {
          assert blocks[j..][1..] == blocks[j + 1..];
          if blocks[j].ToolResult? {
            var flushed := ProjectPending(pending);
            var result := ProjectResult(blocks[j]);
            if flushed.None? || result.None? {
              return None;
            }
            BothAssociates(Some(turns), Some(flushed.value + [result.value]), ProjectUserBlocks([], blocks[j + 1..]));
            turns := turns + (flushed.value + [result.value]);
            pending := [];
          } else {
            pending := pending + [blocks[j]];
          }
        }
        var flushed := ProjectPending(pending);
        if flushed.None? {
          return None;
        }
        ghost var projection := ProjectUserBlocks([], blocks);
        assert Some(turns + flushed.value) == Both(Some(before), projection);
        BothAssociates(Some(before), projection, tail);
        turns := turns + flushed.value;
      } else {
        var one := ProjectMessage(message);
        if one.None? {
          return None;
        }
        BothAssociates(Some(turns), one, tail);
        turns := turns + one.value;
      }
    }
    assert messages[|messages|..] == [];
    BothNothing(Some(turns));
    return Some(turns);
  }

  lemma BothNothing(a: Option<History>)
    ensures Both(Some([]), a) == a && Both(a, Some([])) == a
  {
    if a.Some? {
      assert [] + a.value == a.value && a.value + [] == a.value;
    }
  }

  lemma BothAssociates(a: Option<History>, b: Option<History>, c: Option<History>)
    ensures Both(a, Both(b, c)) == Both(Both(a, b), c)
  {
    if a.Some? && b.Some? && c.Some? {
      assert a.value + (b.value + c.value) == (a.value + b.value) + c.value;
    }
  }
}
