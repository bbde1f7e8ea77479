/** Provider-neutral messages: the form every codec starts from and projects back to. */
module Neutral {
  import opened Wrappers
  import opened Wire

  // An image carries exactly one of inline data and a URL.
  datatype Part =
    | TextPart(text: string)
    | DataImage(mediaType: string, data: string)
    | UrlImage(mediaType: string, url: string)

  datatype Input = PlainInput(text: string) | Parts(parts: seq<Part>)

  datatype Item =
    | TextItem(text: string)
    | ThinkingItem(thinking: string, signature: Option<string>, redacted: bool, encrypted: Option<string>)
    | CallItem(id: string, name: string, arguments: Json, partial: bool, rawArguments: Option<string>)

  datatype Turn =
    | UserTurn(input: Input)
    | AssistantTurn(items: seq<Item>)
    | ResultTurn(callId: string, toolName: string, isError: bool, input: Input)

  type History = seq<Turn>

  /** The calls an assistant turn really made: partial ones were never completed requests. */
  function CallIds(items: seq<Item>): seq<string> {
    if items == [] then []
    else if items[0].CallItem? && !items[0].partial then [items[0].id] + CallIds(items[1..])
    else CallIds(items[1..])
  }

  /** How many result turns the history starts with. */
  function RunLength(turns: History): (n: nat)
    ensures n <= |turns|
    ensures forall i :: 0 <= i < n ==> turns[i].ResultTurn?
    ensures n < |turns| ==> !turns[n].ResultTurn?
  {
    if turns == [] || !turns[0].ResultTurn? then 0 else 1 + RunLength(turns[1..])
  }

  predicate AllResults(batch: History) {
    forall i :: 0 <= i < |batch| ==> batch[i].ResultTurn?
  }

  function AnsweredIds(batch: History): seq<string>
    requires AllResults(batch)
  {
    if batch == [] then [] else [batch[0].callId] + AnsweredIds(batch[1..])
  }

  /** Every call is answered by exactly the run of results right after it, and nothing else is. */
  predicate Answered(turns: History) {
    if turns == [] then true
    else match turns[0]
      case UserTurn(_) => Answered(turns[1..])
      case ResultTurn(_, _, _, _) => false
      case AssistantTurn(items) =>
        var n := RunLength(turns[1..]);
        var calls, answers := CallIds(items), AnsweredIds(turns[1..][..n]);
        && "" !in calls && "" !in answers && Distinct(calls)
        && (if calls == [] then answers == [] else IdsMatch(calls, answers))
        && Answered(turns[1..][n..])
  }
}
