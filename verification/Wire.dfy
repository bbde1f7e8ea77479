/** Provider-shaped ("wire") messages: a role and either plain text or a list of blocks. */
module Wire {
  import opened Wrappers

  datatype Role = User | Assistant | OtherRole

  // Opaque JSON text: arguments and bodies are never inspected.
  datatype Json = Json(text: string)

  datatype ImageSource = UrlSource(url: string) | Base64Source(mediaType: string, data: string)

  // A missing id is None; an id may also be present and empty.
  datatype Block =
    | Text(text: string)
    | Image(source: ImageSource)
    | Thinking(thinking: string, signature: Option<string>, encrypted: Option<string>)
    | RedactedThinking(data: string)
    | ToolUse(id: Option<string>, name: string, input: Json)
    | ToolResult(toolUseId: Option<string>, content: Content, isError: bool)

  datatype Content = Plain(text: string) | Blocks(blocks: seq<Block>)

  datatype Message = Message(role: Role, content: Content)

  function BlocksOf(message: Message): seq<Block> {
    if message.content.Blocks? then message.content.blocks else []
  }

  function IdText(id: Option<string>): string {
    if id.Some? then id.value else ""
  }

  function UseIds(blocks: seq<Block>): seq<string> {
    if blocks == [] then []
    else if blocks[0].ToolUse? then [IdText(blocks[0].id)] + UseIds(blocks[1..])
    else UseIds(blocks[1..])
  }

  function ResultIds(blocks: seq<Block>): seq<string> {
    if blocks == [] then []
    else if blocks[0].ToolResult? then [IdText(blocks[0].toolUseId)] + ResultIds(blocks[1..])
    else ResultIds(blocks[1..])
  }

  function ToolUseIds(message: Message): seq<string> {
    UseIds(BlocksOf(message))
  }

  function ToolResultIds(message: Message): seq<string> {
    ResultIds(BlocksOf(message))
  }

  function IdSet(ids: seq<string>): set<string> {
    set id | id in ids
  }

  predicate Distinct(ids: seq<string>) {
    forall i, j :: 0 <= i < j < |ids| ==> ids[i] != ids[j]
  }

  predicate IdsMatch(left: seq<string>, right: seq<string>) {
    left != [] && |left| == |right| && IdSet(left) == IdSet(right)
  }
}
