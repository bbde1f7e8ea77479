/** The tool_use / tool_result adjacency rule every prompt must satisfy. */
module Pairing {
  import opened Wrappers
  import opened Wire

  /** The rule at one position, looking only at the two neighbours. */
  predicate PairedAt(messages: seq<Message>, i: nat)
    requires i < |messages|
  {
    match messages[i].role
    case Assistant =>
      var uses := ToolUseIds(messages[i]);
      && "" !in uses
      && (uses != [] ==>
        && Distinct(uses)
        && i + 1 < |messages|
        && messages[i + 1].role == User
        && "" !in ToolResultIds(messages[i + 1])
        && IdsMatch(uses, ToolResultIds(messages[i + 1])))
    case User =>
      var results := ToolResultIds(messages[i]);
      && "" !in results
      && (results != [] ==>
        && 0 < i
        && messages[i - 1].role == Assistant
        && IdsMatch(ToolUseIds(messages[i - 1]), results))
    case OtherRole => true
  }

  predicate WellPaired(messages: seq<Message>) {
    forall i :: 0 <= i < |messages| ==> PairedAt(messages, i)
  }

  datatype PairingError =
    | UseMissingId(index: nat)
    | DuplicateUse(index: nat)
    | OrphanUse(index: nat)
    | ResultMissingId(index: nat)
    | OrphanResult(index: nat)
    | Mismatch(index: nat, missing: set<string>, extra: set<string>)
    | ReverseMismatch(index: nat, missing: set<string>, extra: set<string>)

  /** What each reported error says about the transcript. */
  predicate Explains(messages: seq<Message>, error: PairingError)
  {
    match error
    case UseMissingId(i) =>
      i < |messages| && messages[i].role == Assistant && "" in ToolUseIds(messages[i])
    case DuplicateUse(i) =>
      i < |messages| && messages[i].role == Assistant && !Distinct(ToolUseIds(messages[i]))
    case OrphanUse(i) =>
      && i < |messages| && messages[i].role == Assistant && ToolUseIds(messages[i]) != []
      && (i + 1 == |messages| || messages[i + 1].role != User)
    case ResultMissingId(i) =>
      i < |messages| && messages[i].role == User && "" in ToolResultIds(messages[i])
    case OrphanResult(i) =>
      && i < |messages| && messages[i].role == User && ToolResultIds(messages[i]) != []
      && (i == 0 || messages[i - 1].role != Assistant)
    case Mismatch(i, missing, extra) =>
      && i + 1 < |messages| && messages[i].role == Assistant && messages[i + 1].role == User
      && !IdsMatch(ToolUseIds(messages[i]), ToolResultIds(messages[i + 1]))
      && missing == IdSet(ToolUseIds(messages[i])) - IdSet(ToolResultIds(messages[i + 1]))
      && extra == IdSet(ToolResultIds(messages[i + 1])) - IdSet(ToolUseIds(messages[i]))
    case ReverseMismatch(i, missing, extra) =>
      && 0 < i < |messages| && messages[i - 1].role == Assistant && messages[i].role == User
      && !IdsMatch(ToolUseIds(messages[i - 1]), ToolResultIds(messages[i]))
      && missing == IdSet(ToolUseIds(messages[i - 1])) - IdSet(ToolResultIds(messages[i]))
      && extra == IdSet(ToolResultIds(messages[i])) - IdSet(ToolUseIds(messages[i - 1]))
  }

  function HasDuplicate(ids: seq<string>): (r: bool)
    ensures r <==> !Distinct(ids)
  {
    if ids == [] then false
    else
      assert ids == [ids[0]] + ids[1..];
      ids[0] in ids[1..] || HasDuplicate(ids[1..])
  }

  /** Scans left to right and reports the first broken position. */
  method ValidateToolPairing(messages: seq<Message>) returns (error: Option<PairingError>)
    ensures error.None? <==> WellPaired(messages)
    ensures error.Some? ==> Explains(messages, error.value)
  {
    for index := 0 to |messages|
      invariant forall i :: 0 <= i < index ==> PairedAt(messages, i)
    {
      var message := messages[index];
      if message.role == Assistant {
        var uses := ToolUseIds(message);
        if "" in uses {
          assert !PairedAt(messages, index);
          return Some(UseMissingId(index));
        }
        if uses == [] {
          continue;
        }
        if HasDuplicate(uses) {
          assert !PairedAt(messages, index);
          return Some(DuplicateUse(index));
        }
        if index + 1 >= |messages| || messages[index + 1].role != User {
          assert !PairedAt(messages, index);
          return Some(OrphanUse(index));
        }
        var results := ToolResultIds(messages[index + 1]);
        if "" in results {
          assert !PairedAt(messages, index);
          return Some(ResultMissingId(index + 1));
        }
        if !IdsMatch(uses, results) {
          assert !PairedAt(messages, index);
          return Some(Mismatch(index, IdSet(uses) - IdSet(results), IdSet(results) - IdSet(uses)));
        }
      } else if message.role == User {
        var results := ToolResultIds(message);
        if "" in results {
          assert !PairedAt(messages, index);
          return Some(ResultMissingId(index));
        }
        if results == [] {
          continue;
        }
        if index == 0 || messages[index - 1].role != Assistant {
          assert !PairedAt(messages, index);
          return Some(OrphanResult(index));
        }
        var uses := ToolUseIds(messages[index - 1]);
        if !IdsMatch(uses, results) {
          assert !PairedAt(messages, index);
          return Some(ReverseMismatch(index, IdSet(uses) - IdSet(results), IdSet(results) - IdSet(uses)));
        }
      }
    }
    return None;
  }

  // ---- What the rule means: every call is answered, once ----

  lemma IdSetCons(ids: seq<string>)
    requires ids != []
    ensures IdSet(ids) == {ids[0]} + IdSet(ids[1..])
  {
    assert ids == [ids[0]] + ids[1..];
  }

  lemma DistinctCons(ids: seq<string>)
    requires ids != []
    ensures Distinct(ids) <==> ids[0] !in IdSet(ids[1..]) && Distinct(ids[1..])
  {
    var rest := ids[1..];
    forall i | 0 <= i < |rest| ensures rest[i] == ids[i + 1] {
    }
    if ids[0] in IdSet(rest) {
      var i :| 0 <= i < |rest| && rest[i] == ids[0];
    }
    if ids[0] !in IdSet(rest) && Distinct(rest) {
      forall i, j | 0 <= i < j < |ids| ensures ids[i] != ids[j] {
        assert ids[j] == rest[j - 1] && rest[j - 1] in rest;
        assert i > 0 ==> ids[i] == rest[i - 1];
      }
    }
  }

  lemma {:induction false} SizeOfIdSet(ids: seq<string>)
    ensures |IdSet(ids)| <= |ids| && (|IdSet(ids)| == |ids| <==> Distinct(ids))
  {
    if ids != [] {
      SizeOfIdSet(ids[1..]);
      IdSetCons(ids);
      DistinctCons(ids);
      hide Distinct, IdSet;
      if ids[0] in IdSet(ids[1..]) {
        assert IdSet(ids) == IdSet(ids[1..]);
      }
    }
  }

  lemma {:induction false} DistinctCounts(ids: seq<string>, id: string)
    requires Distinct(ids)
    ensures multiset(ids)[id] == if id in ids then 1 else 0
  {
    if ids != [] {
      assert ids == [ids[0]] + ids[1..];
      assert ids[0] !in ids[1..];
      DistinctCounts(ids[1..], id);
    }
  }

  /** For calls with different ids, matching answers are exactly those calls again, in any order. */
  lemma MatchIsPermutation(uses: seq<string>, results: seq<string>)
    requires Distinct(uses) && uses != []
    ensures IdsMatch(uses, results) <==> multiset(results) == multiset(uses)
  {
    SizeOfIdSet(uses);
    SizeOfIdSet(results);
    if IdsMatch(uses, results) {
      forall id ensures multiset(results)[id] == multiset(uses)[id] {
        DistinctCounts(uses, id);
        DistinctCounts(results, id);
        assert id in uses <==> id in IdSet(uses);
        assert id in results <==> id in IdSet(results);
      }
    }
    if multiset(results) == multiset(uses) {
      assert |results| == |multiset(results)| == |uses|;
      forall id ensures id in uses <==> id in results {
        assert id in uses <==> id in multiset(uses);
        assert id in results <==> id in multiset(results);
      }
      assert IdSet(uses) == IdSet(results);
    }
  }

  lemma PairedNeighbours(uses: seq<string>, results: seq<string>)
    requires uses != []
    ensures "" !in uses && Distinct(uses) && "" !in results && IdsMatch(uses, results) <==>
              "" !in uses && Distinct(uses) && multiset(results) == multiset(uses)
  {
    if Distinct(uses) {
      MatchIsPermutation(uses, results);
      assert "" in results <==> "" in multiset(results);
      assert "" in uses <==> "" in multiset(uses);
    }
  }

  lemma AnsweredNext(messages: seq<Message>, i: nat)
    requires i < |messages| && messages[i].role == Assistant && ToolUseIds(messages[i]) != []
    ensures PairedAt(messages, i) <==>
      && "" !in ToolUseIds(messages[i]) && Distinct(ToolUseIds(messages[i]))
      && i + 1 < |messages| && messages[i + 1].role == User
      && multiset(ToolResultIds(messages[i + 1])) == multiset(ToolUseIds(messages[i]))
  {
    if i + 1 < |messages| {
      PairedNeighbours(ToolUseIds(messages[i]), ToolResultIds(messages[i + 1]));
    }
  }

  /** The calls of message i, if it makes any, are answered once each by the message after it. */
  predicate CallsAnswered(messages: seq<Message>, i: nat)
    requires i < |messages|
  {
    var uses := ToolUseIds(messages[i]);
    messages[i].role == Assistant ==>
      && "" !in uses && Distinct(uses)
      && (uses != [] ==> i + 1 < |messages| && messages[i + 1].role == User
                         && multiset(ToolResultIds(messages[i + 1])) == multiset(uses))
  }

  /** The results of message i, if it holds any, come right after a message that makes calls. */
  predicate ResultsAsked(messages: seq<Message>, i: nat)
    requires i < |messages|
  {
    messages[i].role == User && ToolResultIds(messages[i]) != [] ==>
      0 < i && messages[i - 1].role == Assistant && ToolUseIds(messages[i - 1]) != []
  }

  lemma AnsweredAndAsked(messages: seq<Message>, i: nat)
    requires i < |messages|
    ensures PairedAt(messages, i) ==> CallsAnswered(messages, i) && ResultsAsked(messages, i)
    ensures CallsAnswered(messages, i) && ResultsAsked(messages, i) && (i > 0 ==> CallsAnswered(messages, i - 1)) ==>
              PairedAt(messages, i)
  {
    hide Distinct, IdsMatch, ToolUseIds, ToolResultIds;
    EmptyIsDistinct();
    if messages[i].role == Assistant && ToolUseIds(messages[i]) != [] {
      AnsweredNext(messages, i);
    }
    if i > 0 {
      var uses, results := ToolUseIds(messages[i - 1]), ToolResultIds(messages[i]);
      if uses != [] {
        PairedNeighbours(uses, results);
      }
      if IdsMatch(uses, results) {
        MatchNeedsUses(uses, results);
      }
    }
  }

  /** A transcript is well paired exactly when each call is answered once, right after it, and nothing else is answered. */
  lemma WellPairedMeansAnsweredOnce(messages: seq<Message>)
    ensures WellPaired(messages) <==>
      forall i :: 0 <= i < |messages| ==> CallsAnswered(messages, i) && ResultsAsked(messages, i)
  {
    hide PairedAt, CallsAnswered, ResultsAsked;
    if WellPaired(messages) {
      forall i | 0 <= i < |messages| ensures CallsAnswered(messages, i) && ResultsAsked(messages, i) {
        assert PairedAt(messages, i);
        AnsweredAndAsked(messages, i);
      }
    }
    if forall i :: 0 <= i < |messages| ==> CallsAnswered(messages, i) && ResultsAsked(messages, i) {
      forall i | 0 <= i < |messages| ensures PairedAt(messages, i) {
        assert i > 0 ==> CallsAnswered(messages, i - 1);
        AnsweredAndAsked(messages, i);
      }
    }
  }

  lemma EmptyIsDistinct()
    ensures Distinct([])
  {
  }

  lemma MatchNeedsUses(uses: seq<string>, results: seq<string>)
    requires IdsMatch(uses, results)
    ensures uses != []
  {
  }

  /** Joining two valid transcripts never creates or breaks a pair. */
  lemma WellPairedAppend(a: seq<Message>, b: seq<Message>)
    requires WellPaired(a) && WellPaired(b)
    ensures WellPaired(a + b)
  {
    var c := a + b;
    forall i | 0 <= i < |c| ensures PairedAt(c, i) {
      if i < |a| {
        assert PairedAt(a, i) && c[i] == a[i];
        assert i + 1 < |a| ==> c[i + 1] == a[i + 1];
      } else {
        assert PairedAt(b, i - |a|) && c[i] == b[i - |a|];
        assert i + 1 < |c| ==> c[i + 1] == b[i + 1 - |a|];
        assert i > |a| ==> c[i - 1] == b[i - 1 - |a|];
      }
    }
  }

  /** Cutting a valid transcript cuts a pair in both halves or in neither. */
  lemma WellPairedCut(a: seq<Message>, b: seq<Message>)
    requires WellPaired(a + b)
    ensures WellPaired(a) <==> WellPaired(b)
  {
    var c := a + b;
    if a == [] || b == [] {
      assert c == a || c == b;
    } else {
      forall i | 0 <= i < |a| - 1 ensures PairedAt(a, i) {
        assert PairedAt(c, i) && c[i] == a[i] && c[i + 1] == a[i + 1];
        assert i > 0 ==> c[i - 1] == a[i - 1];
      }
      forall i | 0 < i < |b| ensures PairedAt(b, i) {
        assert PairedAt(c, |a| + i) && c[|a| + i] == b[i] && c[|a| + i - 1] == b[i - 1];
        assert i + 1 < |b| ==> c[|a| + i + 1] == b[i + 1];
      }
      var last := |a| - 1;
      assert PairedAt(c, last) && c[last] == a[last] && c[|a|] == b[0];
      assert last > 0 ==> c[last - 1] == a[last - 1];
      assert PairedAt(c, |a|);
      assert |b| > 1 ==> c[|a| + 1] == b[1];
      assert WellPaired(a) <==> PairedAt(a, last);
      assert WellPaired(b) <==> PairedAt(b, 0);
    }
  }

  /** A user message without tool results is a wall no pair can cross. */
  lemma WellPairedAroundWall(a: seq<Message>, wall: Message, b: seq<Message>)
    requires wall.role == User && ToolResultIds(wall) == []
    ensures WellPaired(a + [wall] + b) <==> WellPaired(a) && WellPaired(b)
  {
    assert PairedAt([wall], 0);
    assert WellPaired([wall]);
    if WellPaired(a) && WellPaired(b) {
      WellPairedAppend(a, [wall]);
      WellPairedAppend(a + [wall], b);
    }
    if WellPaired(a + [wall] + b) {
      var c := a + [wall] + b;
      forall i | 0 <= i < |a| ensures PairedAt(a, i) {
        assert PairedAt(c, i) && c[i] == a[i] && c[i + 1] == (a + [wall])[i + 1];
        assert i > 0 ==> c[i - 1] == a[i - 1];
      }
      WellPairedAppend(a, [wall]);
      WellPairedCut(a + [wall], b);
    }
  }
}
