/** Assembling one completion from streamed chunks: text by concatenation, tool calls by index. */
module StreamAssembly {
  import opened Wrappers

  // A missing field and an empty one are treated alike, so "" stands for both.
  datatype ToolDelta = ToolDelta(index: int, id: string, name: string, arguments: string)

  datatype Delta = Delta(content: string, reasoning: string, encrypted: string, tools: seq<ToolDelta>)

  datatype Choice = Choice(index: int, finish: Option<string>, delta: Option<Delta>)

  type Chunk = seq<Choice>

  datatype Parts = Parts(id: string, name: string, arguments: string)

  datatype Message = Message(
    content: Option<string>,
    reasoning: Option<string>,
    encrypted: Option<string>,
    toolCalls: seq<Parts>,
    finish: Option<string>
  )

  const NO_PARTS: Parts := Parts("", "", "")

  // ---- Merging an id or a name ----

  /** Either value may repeat the other from its start; only unrelated values are appended. */
  function MergeIdentity(current: string, incoming: string): string {
    if incoming == "" then current
    else if current == "" then incoming
    else if incoming == current then current
    else if current <= incoming then incoming
    else if incoming <= current then current
    else current + incoming
  }

  function MergeAll(fragments: seq<string>): string {
    if fragments == [] then "" else MergeIdentity(MergeAll(fragments[..|fragments| - 1]), fragments[|fragments| - 1])
  }

  function Concat(fragments: seq<string>): string {
    if fragments == [] then "" else Concat(fragments[..|fragments| - 1]) + fragments[|fragments| - 1]
  }

  /** Prefixes of one string, in any order and with repeats, merge to the longest of them. */
  lemma {:induction false} PrefixesMergeToLongest(fragments: seq<string>, whole: string)
    requires forall f :: f in fragments ==> f <= whole
    ensures MergeAll(fragments) <= whole
    ensures forall f :: f in fragments ==> f <= MergeAll(fragments)
    ensures fragments != [] ==> MergeAll(fragments) in fragments
  {
    if fragments != [] {
      var before, last := fragments[..|fragments| - 1], fragments[|fragments| - 1];
      assert fragments == before + [last];
      forall f | f in before ensures f in fragments && f <= whole {
      }
      PrefixesMergeToLongest(before, whole);
      assert last in fragments;
      PrefixesAreOrdered(MergeAll(before), last, whole);
      PrefixGrows(before, MergeAll(before), MergeAll(fragments));
    }
  }

  lemma PrefixesAreOrdered(a: string, b: string, whole: string)
    requires a <= whole && b <= whole
    ensures a <= b || b <= a
  {
  }

  lemma PrefixGrows(fragments: seq<string>, a: string, b: string)
    requires a <= b && forall f :: f in fragments ==> f <= a
    ensures forall f :: f in fragments ==> f <= b
  {
    forall f | f in fragments ensures f <= b {
      assert f <= a;
    }
  }

  /** Nothing received so far is a prefix of the next fragment, nor the other way round. */
  predicate Unrelated(before: string, next: string) {
    before == "" || next == "" || !(before <= next || next <= before)
  }

  ghost predicate NeverRelated(fragments: seq<string>) {
    forall i :: 0 <= i < |fragments| ==> Unrelated(Concat(fragments[..i]), fragments[i])
  }

  lemma {:induction false} MergeIsNoLonger(fragments: seq<string>)
    ensures |MergeAll(fragments)| <= |Concat(fragments)|
  {
    if fragments != [] {
      MergeIsNoLonger(fragments[..|fragments| - 1]);
    }
  }

  lemma NeverRelatedLast(before: seq<string>, last: string)
    ensures NeverRelated(before + [last]) <==> NeverRelated(before) && Unrelated(Concat(before), last)
  {
    var all := before + [last];
    assert all[..|before|] == before && all[|before|] == last;
    forall i | 0 <= i < |before| ensures all[..i] == before[..i] && all[i] == before[i] {
    }
    hide Concat, Unrelated;
    if NeverRelated(all) {
      forall i | 0 <= i < |before| ensures Unrelated(Concat(before[..i]), before[i]) {
        assert Unrelated(Concat(all[..i]), all[i]);
      }
      assert Unrelated(Concat(all[..|before|]), all[|before|]);
    }
    if NeverRelated(before) && Unrelated(Concat(before), last) {
      forall i | 0 <= i < |all| ensures Unrelated(Concat(all[..i]), all[i]) {
        assert i < |before| ==> Unrelated(Concat(before[..i]), before[i]);
      }
    }
  }

  lemma MergeOfUnrelated(before: string, next: string)
    ensures |MergeIdentity(before, next)| <= |before| + |next|
    ensures MergeIdentity(before, next) == before + next <==> Unrelated(before, next)
    ensures |MergeIdentity(before, next)| == |before| + |next| <==> Unrelated(before, next)
  {
  }

  /** Merging loses nothing exactly when no fragment repeats, from the start, what came before it. */
  lemma {:induction false} MergeIsConcatIff(fragments: seq<string>)
    ensures MergeAll(fragments) == Concat(fragments) <==> NeverRelated(fragments)
  {
    if fragments != [] {
      var before, last := fragments[..|fragments| - 1], fragments[|fragments| - 1];
      assert fragments == before + [last];
      MergeIsConcatIff(before);
      MergeIsNoLonger(before);
      NeverRelatedLast(before, last);
      var merged, whole := MergeAll(before), Concat(before);
      MergeOfUnrelated(merged, last);
      hide NeverRelated, MergeIdentity, Unrelated, MergeAll, Concat;
      MergeLast(before, last);
      if MergeIdentity(merged, last) == whole + last {
        assert |merged| == |whole|;
        assert merged == (merged + last)[..|merged|] == (whole + last)[..|merged|] == whole;
      }
    }
  }

  lemma MergeLast(before: seq<string>, last: string)
    ensures MergeAll(before + [last]) == MergeIdentity(MergeAll(before), last)
    ensures Concat(before + [last]) == Concat(before) + last
  {
    assert (before + [last])[..|before|] == before;
  }

  /** The failing family, smallest member: an id of two equal characters sent one at a time. */
  lemma RepeatedFragmentIsLost()
    ensures MergeAll(["7", "7"]) == "7" && Concat(["7", "7"]) == "77"
  {
    assert ["7", "7"][..1] == ["7"] && ["7"][..0] == [];
    assert MergeAll(["7"]) == "7" && Concat(["7"]) == "7";
  }

  // ---- Tool calls by index ----

  type Calls = map<int, Parts>

  function Merge(parts: Parts, delta: ToolDelta): Parts {
    Parts(MergeIdentity(parts.id, delta.id), MergeIdentity(parts.name, delta.name), parts.arguments + delta.arguments)
  }

  function Absorb(calls: Calls, delta: ToolDelta): Calls {
    calls[delta.index := Merge(if delta.index in calls then calls[delta.index] else NO_PARTS, delta)]
  }

  function AbsorbAll(deltas: seq<ToolDelta>): Calls {
    if deltas == [] then map[] else Absorb(AbsorbAll(deltas[..|deltas| - 1]), deltas[|deltas| - 1])
  }

  lemma AbsorbLast(deltas: seq<ToolDelta>, last: ToolDelta)
    ensures AbsorbAll(deltas + [last]) == Absorb(AbsorbAll(deltas), last)
    ensures MergeIdentity("", "") == "" && forall s: string :: MergeIdentity(s, "") == s
  {
    assert (deltas + [last])[..|deltas|] == deltas;
  }

  function ForIndex(deltas: seq<ToolDelta>, index: int): seq<ToolDelta> {
    if deltas == [] then []
    else if deltas[|deltas| - 1].index == index then ForIndex(deltas[..|deltas| - 1], index) + [deltas[|deltas| - 1]]
    else ForIndex(deltas[..|deltas| - 1], index)
  }

  function Ids(deltas: seq<ToolDelta>): seq<string> {
    seq(|deltas|, i requires 0 <= i < |deltas| => deltas[i].id)
  }

  function Names(deltas: seq<ToolDelta>): seq<string> {
    seq(|deltas|, i requires 0 <= i < |deltas| => deltas[i].name)
  }

  function Arguments(deltas: seq<ToolDelta>): seq<string> {
    seq(|deltas|, i requires 0 <= i < |deltas| => deltas[i].arguments)
  }

  /** One call from its own deltas alone. */
  function PartsFrom(deltas: seq<ToolDelta>): Parts {
    Parts(MergeAll(Ids(deltas)), MergeAll(Names(deltas)), Concat(Arguments(deltas)))
  }

  lemma PartsFromLast(deltas: seq<ToolDelta>, last: ToolDelta)
    ensures PartsFrom(deltas + [last]) == Merge(PartsFrom(deltas), last)
  {
    var all := deltas + [last];
    assert Ids(all)[..|all| - 1] == Ids(deltas);
    assert Names(all)[..|all| - 1] == Names(deltas);
    assert Arguments(all)[..|all| - 1] == Arguments(deltas);
  }

  /** Each assembled call is what its own deltas give, whatever came between them. */
  lemma {:induction false} CallsAreByIndex(deltas: seq<ToolDelta>, index: int)
    ensures index in AbsorbAll(deltas) <==> ForIndex(deltas, index) != []
    ensures index in AbsorbAll(deltas) ==> AbsorbAll(deltas)[index] == PartsFrom(ForIndex(deltas, index))
  {
    if deltas != [] {
      var before, last := deltas[..|deltas| - 1], deltas[|deltas| - 1];
      CallsAreByIndex(before, index);
      if last.index == index {
        PartsFromLast(ForIndex(before, index), last);
        assert PartsFrom([]) == NO_PARTS;
      }
    }
  }

  ghost predicate SameByIndex(a: seq<ToolDelta>, b: seq<ToolDelta>) {
    forall index :: ForIndex(a, index) == ForIndex(b, index)
  }

  lemma SameCalls(a: seq<ToolDelta>, b: seq<ToolDelta>)
    requires SameByIndex(a, b)
    ensures AbsorbAll(a) == AbsorbAll(b)
  {
    var x, y := AbsorbAll(a), AbsorbAll(b);
    forall index | index in x || index in y ensures index in x && index in y && x[index] == y[index] {
      CallsAreByIndex(a, index);
      CallsAreByIndex(b, index);
      assert ForIndex(a, index) == ForIndex(b, index);
    }
    assert x.Keys == y.Keys;
  }

  // ---- Sorted output ----

  predicate Ascending(keys: seq<int>) {
    forall i, j :: 0 <= i < j < |keys| ==> keys[i] < keys[j]
  }

  ghost predicate IsLeast(keys: set<int>, least: int) {
    least in keys && forall k :: k in keys ==> least <= k
  }

  lemma HasMember(keys: set<int>)
    requires keys != {}
    ensures exists k :: k in keys
  {
    if forall k :: k !in keys {
      assert false;
    }
  }

  lemma {:induction false} HasLeast(keys: set<int>)
    requires keys != {}
    ensures exists least :: IsLeast(keys, least)
    decreases |keys|
  {
    HasMember(keys);
    var some :| some in keys;
    var rest := keys - {some};
    if rest == {} {
      assert forall k :: k in keys ==> k == some || k in rest;
      assert IsLeast(keys, some);
    } else {
      HasLeast(rest);
      var least :| IsLeast(rest, least);
      assert forall k :: k in keys ==> k == some || k in rest;
      assert IsLeast(keys, if some < least then some else least);
    }
  }

  lemma LeastIsUnique(keys: set<int>, a: int, b: int)
    requires IsLeast(keys, a) && IsLeast(keys, b)
    ensures a == b
  {
  }

  ghost function Least(keys: set<int>): (least: int)
    requires keys != {}
    ensures IsLeast(keys, least)
  {
    HasLeast(keys);
    var least :| IsLeast(keys, least);
    least
  }

  ghost function Sorted(keys: set<int>): seq<int>
    decreases |keys|
  {
    if keys == {} then [] else [Least(keys)] + Sorted(keys - {Least(keys)})
  }

  /** All keys, each once, in ascending order. */
  lemma {:induction false} SortedAscends(keys: set<int>)
    ensures Ascending(Sorted(keys))
    ensures forall k :: k in Sorted(keys) <==> k in keys
    decreases |keys|
  {
    if keys != {} {
      var least, rest := Least(keys), keys - {Least(keys)};
      SortedAscends(rest);
      var sorted := Sorted(rest);
      assert Sorted(keys) == [least] + sorted;
      forall i | 0 <= i < |sorted| ensures least < sorted[i] {
        assert sorted[i] in sorted;
      }
    }
  }

  /** Taking the keys out in ascending order. */
  method SortKeys(keys: set<int>) returns (sorted: seq<int>)
    ensures sorted == Sorted(keys)
  {
    sorted := [];
    var rest := keys;
    while rest != {}
      invariant sorted + Sorted(rest) == Sorted(keys)
      decreases |rest|
    {
      var least :| least in rest;
      var others := rest - {least};
      while others != {}
        invariant others <= rest && least in rest
        invariant forall k :: k in rest ==> least <= k || k in others
        decreases |others|
      {
        HasMember(others);
        var k :| k in others;
        if k < least {
          least := k;
        }
        others := others - {k};
      }
      LeastIsUnique(rest, least, Least(rest));
      AppendAssociates(sorted, [least], Sorted(rest - {least}));
      sorted := sorted + [least];
      rest := rest - {least};
    }
  }

  // ---- Whole streams ----

  function Primary(choices: seq<Choice>): seq<Delta> {
    if choices == [] then []
    else
      var last := choices[|choices| - 1];
      if last.index == 0 && last.delta.Some? then Primary(choices[..|choices| - 1]) + [last.delta.value]
      else Primary(choices[..|choices| - 1])
  }

  predicate SawPrimary(choices: seq<Choice>) {
    exists i :: 0 <= i < |choices| && choices[i].index == 0
  }

  function LastFinish(choices: seq<Choice>): Option<string> {
    if choices == [] then None
    else
      var last := choices[|choices| - 1];
      if last.index == 0 && last.finish.Some? then last.finish else LastFinish(choices[..|choices| - 1])
  }

  function Content(deltas: seq<Delta>): string {
    if deltas == [] then "" else Content(deltas[..|deltas| - 1]) + deltas[|deltas| - 1].content
  }

  function Reasoning(deltas: seq<Delta>): string {
    if deltas == [] then "" else Reasoning(deltas[..|deltas| - 1]) + deltas[|deltas| - 1].reasoning
  }

  function Encrypted(deltas: seq<Delta>): string {
    if deltas == [] then "" else Encrypted(deltas[..|deltas| - 1]) + deltas[|deltas| - 1].encrypted
  }

  function Tools(deltas: seq<Delta>): seq<ToolDelta> {
    if deltas == [] then [] else Tools(deltas[..|deltas| - 1]) + deltas[|deltas| - 1].tools
  }

  function InOrder(calls: Calls, keys: seq<int>): seq<Parts>
    requires forall i :: 0 <= i < |keys| ==> keys[i] in calls
  {
    seq(|keys|, i requires 0 <= i < |keys| => calls[keys[i]])
  }

  ghost function ToolCalls(calls: Calls): seq<Parts> {
    SortedAscends(calls.Keys);
    assert forall i :: 0 <= i < |Sorted(calls.Keys)| ==> Sorted(calls.Keys)[i] in Sorted(calls.Keys);
    InOrder(calls, Sorted(calls.Keys))
  }

  function Flatten(chunks: seq<Chunk>): seq<Choice> {
    if chunks == [] then [] else Flatten(chunks[..|chunks| - 1]) + chunks[|chunks| - 1]
  }

  /** The message a stream stands for, each part of it read off the choices on its own. */
  ghost function Assembled(choices: seq<Choice>): Option<Message> {
    var deltas := Primary(choices);
    if !SawPrimary(choices) then None
    else Some(Message(NonEmpty(Content(deltas)), NonEmpty(Reasoning(deltas)), NonEmpty(Encrypted(deltas)),
                      ToolCalls(AbsorbAll(Tools(deltas))), LastFinish(choices)))
  }

  method AbsorbDeltas(calls: Calls, tools: seq<ToolDelta>, ghost done: seq<ToolDelta>) returns (merged: Calls)
    requires calls == AbsorbAll(done)
    ensures merged == AbsorbAll(done + tools)
  {
    merged := calls;
    assert done + tools[..0] == done;
    for i := 0 to |tools|
      invariant merged == AbsorbAll(done + tools[..i])
    {
      hide MergeIdentity;
      var delta := tools[i];
      var parts := if delta.index in merged then merged[delta.index] else NO_PARTS;
      if delta.id != "" {
        parts := parts.(id := MergeIdentity(parts.id, delta.id));
      }
      if delta.name != "" {
        parts := parts.(name := MergeIdentity(parts.name, delta.name));
      }
      parts := parts.(arguments := parts.arguments + delta.arguments);
      AbsorbLast(done + tools[..i], delta);
      merged := merged[delta.index := parts];
      assert done + tools[..i + 1] == done + tools[..i] + [delta];
    }
    assert done + tools[..|tools|] == done + tools;
  }

  // What has been collected from the choices seen so far.
  datatype Collected = Collected(content: seq<string>, reasoning: seq<string>, encrypted: seq<string>, calls: Calls,
                                 finish: Option<string>, saw: bool)

  ghost predicate Collects(c: Collected, choices: seq<Choice>) {
    && Concat(c.content) == Content(Primary(choices))
    && Concat(c.reasoning) == Reasoning(Primary(choices))
    && Concat(c.encrypted) == Encrypted(Primary(choices))
    && c.calls == AbsorbAll(Tools(Primary(choices)))
    && c.finish == LastFinish(choices)
    && c.saw == SawPrimary(choices)
  }

  function Pushed(parts: seq<string>, text: string): (r: seq<string>)
    ensures Concat(r) == Concat(parts) + text
  {
    if text == "" then parts
    else
      assert (parts + [text])[..|parts|] == parts;
      parts + [text]
  }

  method CollectChoice(c: Collected, choice: Choice, ghost done: seq<Choice>) returns (next: Collected)
    requires Collects(c, done)
    ensures Collects(next, done + [choice])
  {
    ghost var all := done + [choice];
    assert all[..|all| - 1] == done;
    if choice.index != 0 {
      SawLast(done, choice);
      return c;
    }
    SawLast(done, choice);
    next := c.(saw := true);
    if choice.finish.Some? {
      next := next.(finish := choice.finish);
    }
    if choice.delta.None? {
      return;
    }
    var delta := choice.delta.value;
    assert Primary(all)[..|Primary(all)| - 1] == Primary(done);
    var calls := AbsorbDeltas(next.calls, delta.tools, Tools(Primary(done)));
    next := Collected(Pushed(next.content, delta.content), Pushed(next.reasoning, delta.reasoning),
                      Pushed(next.encrypted, delta.encrypted), calls, next.finish, true);
  }

  lemma SawLast(done: seq<Choice>, choice: Choice)
    ensures SawPrimary(done + [choice]) <==> SawPrimary(done) || choice.index == 0
  {
    var all := done + [choice];
    if choice.index == 0 {
      assert all[|done|].index == 0;
    }
    if SawPrimary(done) {
      var i :| 0 <= i < |done| && done[i].index == 0;
      assert all[i].index == 0;
    }
  }

  method Conclude(c: Collected, ghost choices: seq<Choice>) returns (message: Option<Message>)
    requires Collects(c, choices)
    ensures message == Assembled(choices)
  {
    if !c.saw {
      return None;
    }
    SortedAscends(c.calls.Keys);
    var keys := SortKeys(c.calls.Keys);
    assert forall i :: 0 <= i < |keys| ==> keys[i] in keys;
    return Some(Message(NonEmpty(Concat(c.content)), NonEmpty(Concat(c.reasoning)), NonEmpty(Concat(c.encrypted)),
                        InOrder(c.calls, keys), c.finish));
  }

  /** The chunk loop: one pass, every choice of every chunk in turn. */
  method CollectStreamedCompletion(chunks: seq<Chunk>) returns (message: Option<Message>)
    ensures message == Assembled(Flatten(chunks))
  {
    var c := Collected([], [], [], map[], None, false);
    assert Collects(c, []);
    hide Collects, Assembled;
    for i := 0 to |chunks|
      invariant Collects(c, Flatten(chunks[..i]))
    {
      var chunk := chunks[i];
      ghost var done := Flatten(chunks[..i]);
      assert chunks[..i + 1][..i] == chunks[..i] && done + chunk[..0] == done;
      for j := 0 to |chunk|
        invariant Collects(c, done + chunk[..j])
      {
        c := CollectChoice(c, chunk[j], done + chunk[..j]);
        assert done + chunk[..j] + [chunk[j]] == done + chunk[..j + 1];
      }
      assert chunk[..|chunk|] == chunk;
    }
    assert chunks[..|chunks|] == chunks;
    message := Conclude(c, Flatten(chunks));
  }

  /** Only the order within the text and within each tool index matters, not how they interleave. */
  lemma InterleavingDoesNotMatter(a: seq<Choice>, b: seq<Choice>)
    requires SawPrimary(a) == SawPrimary(b) && LastFinish(a) == LastFinish(b)
    requires Content(Primary(a)) == Content(Primary(b)) && Reasoning(Primary(a)) == Reasoning(Primary(b))
    requires Encrypted(Primary(a)) == Encrypted(Primary(b))
    requires SameByIndex(Tools(Primary(a)), Tools(Primary(b)))
    ensures Assembled(a) == Assembled(b)
  {
    SameCalls(Tools(Primary(a)), Tools(Primary(b)));
  }

  /** The k-th call of the message belongs to the k-th index that occurs, and is made of its deltas alone. */
  lemma ToolCallsAreByIndex(deltas: seq<ToolDelta>, k: nat)
    requires k < |ToolCalls(AbsorbAll(deltas))|
    ensures var index := Sorted(AbsorbAll(deltas).Keys)[k];
            ForIndex(deltas, index) != [] && ToolCalls(AbsorbAll(deltas))[k] == PartsFrom(ForIndex(deltas, index))
  {
    SortedAscends(AbsorbAll(deltas).Keys);
    var index := Sorted(AbsorbAll(deltas).Keys)[k];
    assert index in Sorted(AbsorbAll(deltas).Keys);
    CallsAreByIndex(deltas, index);
  }

  // ---- The message field by field, read off the chunks' own fields ----

  lemma {:induction false} ConcatAddsUp(a: seq<string>, b: seq<string>)
    ensures Concat(a + b) == Concat(a) + Concat(b)
    ensures forall text: string :: Concat([text]) == text
  {
    assert forall text: string :: [text][..0] == [];
    if b == [] {
      assert a + b == a;
    } else {
      ConcatAddsUp(a, b[..|b| - 1]);
      assert (a + b)[..|a + b| - 1] == a + b[..|b| - 1];
    }
  }

  lemma {:induction false} PrimaryIs(choices: seq<Choice>, primary: Choice -> bool, delta: Choice -> Delta)
    requires forall c: Choice :: primary(c) <==> c.index == 0 && c.delta.Some?
    requires forall c: Choice :: c.delta.Some? ==> delta(c) == c.delta.value
    ensures Primary(choices) == Mapped(Filter(choices, primary), delta)
  {
    if choices != [] {
      var before, last := choices[..|choices| - 1], choices[|choices| - 1];
      assert choices == before + [last];
      PrimaryIs(before, primary, delta);
      FilterLast(before, last, primary);
      MappedAppend(Filter(before, primary), [last], delta);
      assert Mapped([last], delta) == [delta(last)];
    }
  }

  lemma {:induction false} TextsAre(deltas: seq<Delta>, content: Delta -> string, reasoning: Delta -> string, encrypted: Delta -> string)
    requires forall d: Delta :: content(d) == d.content && reasoning(d) == d.reasoning && encrypted(d) == d.encrypted
    ensures Content(deltas) == Concat(Mapped(deltas, content))
    ensures Reasoning(deltas) == Concat(Mapped(deltas, reasoning))
    ensures Encrypted(deltas) == Concat(Mapped(deltas, encrypted))
  {
    if deltas != [] {
      TextsAre(deltas[..|deltas| - 1], content, reasoning, encrypted);
      var n := |deltas| - 1;
      assert Mapped(deltas, content)[..n] == Mapped(deltas[..n], content);
      assert Mapped(deltas, reasoning)[..n] == Mapped(deltas[..n], reasoning);
      assert Mapped(deltas, encrypted)[..n] == Mapped(deltas[..n], encrypted);
    }
  }

  lemma {:induction false} ToolsAre(deltas: seq<Delta>, tools: Delta -> seq<ToolDelta>)
    requires forall d: Delta :: tools(d) == d.tools
    ensures Tools(deltas) == Flat(Mapped(deltas, tools))
  {
    if deltas != [] {
      var before, last := deltas[..|deltas| - 1], deltas[|deltas| - 1];
      ToolsAre(before, tools);
      assert Mapped(deltas, tools) == Mapped(before, tools) + [last.tools];
      FlatLast(Mapped(before, tools), last.tools);
    }
  }

  lemma {:induction false} LastFinishIs(choices: seq<Choice>, finished: Choice -> bool)
    requires forall c: Choice :: finished(c) <==> c.index == 0 && c.finish.Some?
    ensures var f := Filter(choices, finished);
            LastFinish(choices) == if f == [] then None else f[|f| - 1].finish
  {
    if choices != [] {
      var before, last := choices[..|choices| - 1], choices[|choices| - 1];
      assert choices == before + [last];
      LastFinishIs(before, finished);
      FilterLast(before, last, finished);
    }
  }

  /** No message without a first choice; else each text is the joined field of that name, and the last finish counts. */
  lemma MessageReads(choices: seq<Choice>, primary: Choice -> bool, finished: Choice -> bool, delta: Choice -> Delta,
                     content: Delta -> string, reasoning: Delta -> string, encrypted: Delta -> string)
    requires forall c: Choice :: primary(c) <==> c.index == 0 && c.delta.Some?
    requires forall c: Choice :: finished(c) <==> c.index == 0 && c.finish.Some?
    requires forall c: Choice :: c.delta.Some? ==> delta(c) == c.delta.value
    requires forall d: Delta :: content(d) == d.content && reasoning(d) == d.reasoning && encrypted(d) == d.encrypted
    ensures Assembled(choices).None? <==> forall i :: 0 <= i < |choices| ==> choices[i].index != 0
    ensures Assembled(choices).Some? ==>
      var m, deltas, f := Assembled(choices).value, Mapped(Filter(choices, primary), delta), Filter(choices, finished);
      && m.content == NonEmpty(Concat(Mapped(deltas, content)))
      && m.reasoning == NonEmpty(Concat(Mapped(deltas, reasoning)))
      && m.encrypted == NonEmpty(Concat(Mapped(deltas, encrypted)))
      && m.finish == if f == [] then None else f[|f| - 1].finish
  {
    PrimaryIs(choices, primary, delta);
    TextsAre(Primary(choices), content, reasoning, encrypted);
    LastFinishIs(choices, finished);
    hide Primary, Content, Reasoning, Encrypted, LastFinish, Tools, AbsorbAll, ToolCalls, Filter, Mapped, Concat;
  }

  lemma {:induction false} ForIndexIs(deltas: seq<ToolDelta>, index: int, here: ToolDelta -> bool)
    requires forall d: ToolDelta :: here(d) <==> d.index == index
    ensures ForIndex(deltas, index) == Filter(deltas, here)
  {
    if deltas != [] {
      var before, last := deltas[..|deltas| - 1], deltas[|deltas| - 1];
      assert deltas == before + [last];
      ForIndexIs(before, index, here);
      FilterLast(before, last, here);
    }
  }

  /** The calls of the message: one per index that occurs, ascending. */
  ghost predicate IndexesOf(deltas: seq<ToolDelta>, keys: seq<int>) {
    Ascending(keys) && forall index :: index in keys <==> exists i :: 0 <= i < |deltas| && deltas[i].index == index
  }

  /** Call k is made of the deltas of the k-th index: ids merged, names merged, arguments joined. */
  ghost predicate CallIs(call: Parts, deltas: seq<ToolDelta>, id: ToolDelta -> string, name: ToolDelta -> string,
                         arguments: ToolDelta -> string) {
    && call.id == MergeAll(Mapped(deltas, id)) && call.name == MergeAll(Mapped(deltas, name))
    && call.arguments == Concat(Mapped(deltas, arguments))
  }

  lemma PartsAre(deltas: seq<ToolDelta>, id: ToolDelta -> string, name: ToolDelta -> string, arguments: ToolDelta -> string)
    requires forall d: ToolDelta :: id(d) == d.id && name(d) == d.name && arguments(d) == d.arguments
    ensures CallIs(PartsFrom(deltas), deltas, id, name, arguments)
  {
    assert Ids(deltas) == Mapped(deltas, id) && Names(deltas) == Mapped(deltas, name);
    assert Arguments(deltas) == Mapped(deltas, arguments);
  }

  lemma OccursIff(deltas: seq<ToolDelta>, index: int, here: ToolDelta -> bool)
    requires forall d: ToolDelta :: here(d) <==> d.index == index
    ensures index in AbsorbAll(deltas) <==> exists i :: 0 <= i < |deltas| && deltas[i].index == index
  {
    CallsAreByIndex(deltas, index);
    ForIndexIs(deltas, index, here);
    FilterAll(deltas, here);
  }

  /** The message's tool calls, from the deltas of all first choices in the order they came. */
  lemma ToolCallsRead(choices: seq<Choice>, primary: Choice -> bool, delta: Choice -> Delta, tools: Delta -> seq<ToolDelta>,
                      here: int -> ToolDelta -> bool, id: ToolDelta -> string, name: ToolDelta -> string,
                      arguments: ToolDelta -> string) returns (keys: seq<int>)
    requires forall c: Choice :: primary(c) <==> c.index == 0 && c.delta.Some?
    requires forall c: Choice :: c.delta.Some? ==> delta(c) == c.delta.value
    requires forall d: Delta :: tools(d) == d.tools
    requires forall index: int, d: ToolDelta :: here(index)(d) <==> d.index == index
    requires forall d: ToolDelta :: id(d) == d.id && name(d) == d.name && arguments(d) == d.arguments
    requires Assembled(choices).Some?
    ensures var deltas, calls := Flat(Mapped(Mapped(Filter(choices, primary), delta), tools)), Assembled(choices).value.toolCalls;
      && IndexesOf(deltas, keys) && |calls| == |keys|
      && forall k :: 0 <= k < |keys| ==> CallIs(calls[k], Filter(deltas, here(keys[k])), id, name, arguments)
  {
    PrimaryIs(choices, primary, delta);
    ToolsAre(Primary(choices), tools);
    var deltas := Tools(Primary(choices));
    var absorbed := AbsorbAll(deltas);
    keys := Sorted(absorbed.Keys);
    SortedAscends(absorbed.Keys);
    forall index ensures index in keys <==> exists i :: 0 <= i < |deltas| && deltas[i].index == index {
      OccursIff(deltas, index, here(index));
    }
    var calls := Assembled(choices).value.toolCalls;
    assert calls == ToolCalls(absorbed) && |calls| == |keys|;
    forall k | 0 <= k < |keys| ensures CallIs(calls[k], Filter(deltas, here(keys[k])), id, name, arguments) {
      ToolCallsAreByIndex(deltas, k);
      ForIndexIs(deltas, keys[k], here(keys[k]));
      PartsAre(ForIndex(deltas, keys[k]), id, name, arguments);
    }
  }
}
