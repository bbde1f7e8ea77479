/** The checkpoint's nine headings: finding them in order, and cutting a text into their bodies. */
module SummaryParser {
  import opened Wrappers
  import opened Strings

  const HEADINGS: seq<string> := [
    "## Goal", "## Constraints & Preferences", "## Progress", "### Done", "### In Progress",
    "### Blocked", "## Key Decisions", "## Next Steps", "## Critical Context"]

  type Body = seq<string>

  /** The first line that is the heading once stripped. */
  function Find(lines: seq<string>, heading: string): (r: Option<nat>)
    ensures r.Some? ==> r.value < |lines|
  {
    if lines == [] then None
    else if Strip(lines[0]) == heading then Some(0)
    else
      var rest := Find(lines[1..], heading);
      if rest.None? then None else Some(rest.value + 1)
  }

  lemma {:induction false} FindIsFirst(lines: seq<string>, heading: string)
    ensures match Find(lines, heading)
      case None => forall i :: 0 <= i < |lines| ==> Strip(lines[i]) != heading
      case Some(at) => Strip(lines[at]) == heading && forall i :: 0 <= i < at ==> Strip(lines[i]) != heading
  {
    if lines != [] && Strip(lines[0]) != heading {
      FindIsFirst(lines[1..], heading);
    }
  }

  predicate IsFact(line: string) {
    var text := Strip(line);
    text != "" && text[0] == '<'
  }

  /** Everything before the first line that opens a fact block. */
  function CutFacts(lines: Body): Body {
    if lines == [] || IsFact(lines[0]) then [] else [lines[0]] + CutFacts(lines[1..])
  }

  lemma {:induction false} CutFactsIsPrefix(lines: Body)
    ensures var r := CutFacts(lines);
            && r <= lines
            && (forall i :: 0 <= i < |r| ==> !IsFact(lines[i]))
            && (|r| < |lines| ==> IsFact(lines[|r|]))
  {
    if lines != [] && !IsFact(lines[0]) {
      CutFactsIsPrefix(lines[1..]);
    }
  }

  lemma CutFactsAt(lines: Body, n: nat)
    requires n <= |lines| && (n < |lines| ==> IsFact(lines[n]))
    ensures CutFacts(lines) <= lines[..n]
    ensures (forall i :: 0 <= i < n ==> !IsFact(lines[i])) ==> CutFacts(lines) == lines[..n]
  {
    CutFactsIsPrefix(lines);
  }

  /** The bodies of all headings, given the lines right after the first heading. */
  function Sections(lines: seq<string>, headings: seq<string>): Result<seq<Body>, string>
    requires headings != []
    decreases |headings|
  {
    if |headings| == 1 then Ok([CutFacts(lines)])
    else match Find(lines, headings[1])
      case None => Err(headings[1])
      case Some(i) =>
        match Sections(lines[i + 1..], headings[1..])
        case Err(missing) => Err(missing)
        case Ok(rest) => Ok([lines[..i]] + rest)
  }

  function ParseLines(lines: seq<string>, headings: seq<string>): Result<seq<Body>, string>
    requires headings != []
  {
    match Find(lines, headings[0])
    case None => Err(headings[0])
    case Some(i) => Sections(lines[i + 1..], headings)
  }

  /** The bodies in heading order, or the first heading that is missing. */
  function Parse(text: string): Result<seq<Body>, string> {
    ParseLines(SplitLines(text), HEADINGS)
  }

  // ---- The two-pass implementation ----

  /** Searches from a cursor for the next exact heading line. */
  method FindFrom(lines: seq<string>, cursor: nat, heading: string) returns (found: Option<nat>)
    requires cursor <= |lines|
    ensures Find(lines[cursor..], heading) == match found case None => None case Some(i) => Some(i - cursor)
    ensures found.Some? ==> cursor <= found.value < |lines|
  {
    for i := cursor to |lines|
      invariant forall j :: cursor <= j < i ==> Strip(lines[j]) != heading
    {
      if Strip(lines[i]) == heading {
        FindAt(lines[cursor..], heading, i - cursor);
        return Some(i);
      }
    }
    FindNowhere(lines[cursor..], heading);
    return None;
  }

  lemma FindNowhere(lines: seq<string>, heading: string)
    requires forall i :: 0 <= i < |lines| ==> Strip(lines[i]) != heading
    ensures Find(lines, heading) == None
  {
    FindIsFirst(lines, heading);
  }

  lemma FindAt(lines: seq<string>, heading: string, at: nat)
    requires at < |lines| && Strip(lines[at]) == heading
    requires forall i :: 0 <= i < at ==> Strip(lines[i]) != heading
    ensures Find(lines, heading) == Some(at)
  {
    FindIsFirst(lines, heading);
  }

  function With(done: seq<Body>, rest: Result<seq<Body>, string>): Result<seq<Body>, string> {
    if rest.Err? then rest else Ok(done + rest.value)
  }

  lemma SectionsUnfold(lines: seq<string>, headings: seq<string>, i: nat)
    requires |headings| > 1 && i < |lines| && Find(lines, headings[1]) == Some(i)
    ensures Sections(lines, headings) == With([lines[..i]], Sections(lines[i + 1..], headings[1..]))
  {
  }

  lemma WithTwice(a: seq<Body>, b: seq<Body>, rest: Result<seq<Body>, string>)
    ensures With(a, With(b, rest)) == With(a + b, rest)
  {
    if rest.Ok? {
      AppendAssociates(a, b, rest.value);
    }
  }

  lemma SectionsStep(lines: seq<string>, headings: seq<string>, k: nat, here: nat, next: nat, done: seq<Body>)
    requires k + 1 < |headings| && here < next < |lines|
    requires Find(lines[here + 1..], headings[k + 1]) == Some(next - here - 1)
    ensures With(done, Sections(lines[here + 1..], headings[k..]))
         == With(done + [lines[here + 1..next]], Sections(lines[next + 1..], headings[k + 1..]))
  {
    hide Sections, Find, With;
    var first := lines[here + 1..];
    assert headings[k..][1] == headings[k + 1] && headings[k..][1..] == headings[k + 1..];
    SectionsUnfold(first, headings[k..], next - here - 1);
    assert first[next - here..] == lines[next + 1..] && first[..next - here - 1] == lines[here + 1..next];
    WithTwice(done, [lines[here + 1..next]], Sections(lines[next + 1..], headings[k + 1..]));
  }

  /** A slice that, like the source language's, is empty when its bounds cross. */
  function Slice(lines: seq<string>, from: nat, to: nat): Body {
    if from <= to <= |lines| then lines[from..to] else []
  }

  function Gap(lines: seq<string>, positions: seq<nat>, j: nat): Body
    requires j + 1 < |positions|
  {
    Slice(lines, positions[j] + 1, positions[j + 1])
  }

  /** The lines strictly between consecutive positions. */
  function Gaps(lines: seq<string>, positions: seq<nat>): seq<Body>
    requires positions != []
  {
    seq(|positions| - 1, j requires 0 <= j < |positions| - 1 => Gap(lines, positions, j))
  }

  lemma GapsSnoc(lines: seq<string>, positions: seq<nat>, next: nat)
    requires positions != []
    ensures Gaps(lines, positions + [next])
         == Gaps(lines, positions) + [Slice(lines, positions[|positions| - 1] + 1, next)]
  {
  }

  /** Heading k sits at a position, and the bodies before it account for the whole parse. */
  ghost predicate SoFar(lines: seq<string>, headings: seq<string>, k: nat, at: nat, done: seq<Body>, whole: Result<seq<Body>, string>) {
    && k < |headings| && at < |lines|
    && whole == With(done, Sections(lines[at + 1..], headings[k..]))
  }

  lemma SoFarFirst(lines: seq<string>, headings: seq<string>, at: nat)
    requires headings != [] && Find(lines, headings[0]) == Some(at)
    ensures SoFar(lines, headings, 0, at, [], ParseLines(lines, headings))
  {
    assert headings[0..] == headings;
    var rest := Sections(lines[at + 1..], headings);
    if rest.Ok? {
      assert [] + rest.value == rest.value;
    }
  }

  lemma SoFarNext(lines: seq<string>, headings: seq<string>, k: nat, at: nat, next: nat, done: seq<Body>, whole: Result<seq<Body>, string>)
    requires SoFar(lines, headings, k, at, done, whole) && k + 1 < |headings|
    requires at < next < |lines| && Find(lines[at + 1..], headings[k + 1]) == Some(next - at - 1)
    ensures SoFar(lines, headings, k + 1, next, done + [Slice(lines, at + 1, next)], whole)
  {
    SectionsStep(lines, headings, k, at, next, done);
  }

  lemma SoFarMissing(lines: seq<string>, headings: seq<string>, k: nat, at: nat, done: seq<Body>, whole: Result<seq<Body>, string>)
    requires SoFar(lines, headings, k, at, done, whole) && k + 1 < |headings|
    requires Find(lines[at + 1..], headings[k + 1]) == None
    ensures whole == Err(headings[k + 1])
  {
  }

  lemma SoFarDone(lines: seq<string>, headings: seq<string>, at: nat, done: seq<Body>, whole: Result<seq<Body>, string>)
    requires headings != [] && SoFar(lines, headings, |headings| - 1, at, done, whole)
    ensures whole == Ok(done + [CutFacts(Slice(lines, at + 1, |lines|))])
  {
    assert |headings[|headings| - 1..]| == 1;
    assert lines[at + 1..|lines|] == lines[at + 1..];
  }

  /** The state of the first pass after k headings. */
  ghost predicate Located(lines: seq<string>, headings: seq<string>, k: nat, positions: seq<nat>, whole: Result<seq<Body>, string>) {
    && |positions| == k && k <= |headings|
    && if k == 0 then headings != [] && whole == ParseLines(lines, headings)
       else SoFar(lines, headings, k - 1, positions[k - 1], Gaps(lines, positions), whole)
  }

  function Cursor(positions: seq<nat>): nat {
    if positions == [] then 0 else positions[|positions| - 1] + 1
  }

  lemma LocatedNext(lines: seq<string>, headings: seq<string>, k: nat, positions: seq<nat>, next: nat, whole: Result<seq<Body>, string>)
    requires Located(lines, headings, k, positions, whole) && k < |headings|
    requires Cursor(positions) <= next < |lines|
    requires Find(lines[Cursor(positions)..], headings[k]) == Some(next - Cursor(positions))
    ensures Located(lines, headings, k + 1, positions + [next], whole)
  {
    if k == 0 {
      assert lines[0..] == lines;
      SoFarFirst(lines, headings, next);
    } else {
      SoFarNext(lines, headings, k - 1, positions[k - 1], next, Gaps(lines, positions), whole);
      GapsSnoc(lines, positions, next);
    }
  }

  lemma LocatedMissing(lines: seq<string>, headings: seq<string>, k: nat, positions: seq<nat>, whole: Result<seq<Body>, string>)
    requires Located(lines, headings, k, positions, whole) && k < |headings| && Cursor(positions) <= |lines|
    requires Find(lines[Cursor(positions)..], headings[k]) == None
    ensures whole == Err(headings[k])
  {
    if k == 0 {
      assert lines[0..] == lines;
    } else {
      SoFarMissing(lines, headings, k - 1, positions[k - 1], Gaps(lines, positions), whole);
    }
  }

  function AllBodies(lines: seq<string>, positions: seq<nat>): seq<Body>
    requires positions != []
  {
    Gaps(lines, positions) + [CutFacts(Slice(lines, Cursor(positions), |lines|))]
  }

  lemma LocatedDone(lines: seq<string>, headings: seq<string>, positions: seq<nat>, whole: Result<seq<Body>, string>)
    requires headings != [] && Located(lines, headings, |headings|, positions, whole)
    ensures whole == Ok(AllBodies(lines, positions))
  {
    SoFarDone(lines, headings, positions[|positions| - 1], Gaps(lines, positions), whole);
  }

  /** First pass: every heading's position, in order, or the first heading that is missing. */
  method HeadingPositions(lines: seq<string>, headings: seq<string>, ghost whole: Result<seq<Body>, string>)
    returns (result: Result<seq<nat>, string>)
    requires Located(lines, headings, 0, [], whole)
    ensures result.Err? ==> whole == Err(result.error)
    ensures result.Ok? ==> result.value != [] && whole == Ok(AllBodies(lines, result.value))
  {
    var positions: seq<nat> := [];
    var cursor := 0;
    for k := 0 to |headings|
      invariant cursor == Cursor(positions) <= |lines|
      invariant Located(lines, headings, k, positions, whole)
    {
      var found := FindFrom(lines, cursor, headings[k]);
      if found.None? {
        LocatedMissing(lines, headings, k, positions, whole);
        return Err(headings[k]);
      }
      LocatedNext(lines, headings, k, positions, found.value, whole);
      positions := positions + [found.value];
      cursor := found.value + 1;
    }
    LocatedDone(lines, headings, positions, whole);
    return Ok(positions);
  }

  /** Second pass: the bodies between the positions, the last one cut at the first fact block. */
  method CollectBodies(lines: seq<string>, positions: seq<nat>) returns (bodies: seq<Body>)
    requires positions != []
    ensures bodies == AllBodies(lines, positions)
  {
    bodies := [];
    ghost var gaps := Gaps(lines, positions);
    for k := 0 to |positions| - 1
      invariant bodies == gaps[..k]
    {
      bodies := bodies + [Slice(lines, positions[k] + 1, positions[k + 1])];
    }
    bodies := bodies + [CutFacts(Slice(lines, positions[|positions| - 1] + 1, |lines|))];
  }

  method BodiesOfLines(lines: seq<string>, headings: seq<string>, ghost whole: Result<seq<Body>, string>)
    returns (result: Result<seq<Body>, string>)
    requires Located(lines, headings, 0, [], whole)
    ensures result == whole
  {
    var located := HeadingPositions(lines, headings, whole);
    if located.Err? {
      return Err(located.error);
    }
    var bodies := CollectBodies(lines, located.value);
    return Ok(bodies);
  }

  method StructuredSummaryBodies(text: string) returns (result: Result<seq<Body>, string>)
    ensures result == Parse(text)
  {
    result := BodiesOfLines(SplitLines(text), HEADINGS, Parse(text));
  }

  // ---- Validity is a matter of order alone ----

  /** The headings occur as whole stripped lines, in order. */
  ghost predicate Ordered(lines: seq<string>, headings: seq<string>, at: seq<nat>) {
    && |at| == |headings|
    && (forall k :: 0 <= k < |at| ==> at[k] < |lines| && Strip(lines[at[k]]) == headings[k])
    && (forall j, k :: 0 <= j < k < |at| ==> at[j] < at[k])
  }

  function Shift(at: seq<nat>, n: nat): seq<nat> {
    seq(|at|, k requires 0 <= k < |at| => at[k] + n)
  }

  lemma OrderedAfterPrefix(prefix: seq<string>, lines: seq<string>, headings: seq<string>, at: seq<nat>)
    requires Ordered(lines, headings, at)
    ensures Ordered(prefix + lines, headings, Shift(at, |prefix|))
  {
  }

  lemma SectionsNeedsRest(lines: seq<string>, headings: seq<string>)
    requires |headings| > 1
    ensures Sections(lines, headings).Ok? <==> ParseLines(lines, headings[1..]).Ok?
  {
  }

  lemma OrderedTail(lines: seq<string>, headings: seq<string>, at: seq<nat>, i: nat) returns (rest: seq<nat>)
    requires headings != [] && Ordered(lines, headings, at) && i <= at[0]
    ensures i < |lines| && Ordered(lines[i + 1..], headings[1..], rest)
  {
    var tail := at[1..];
    forall k | 0 <= k < |tail| ensures tail[k] > i {
      assert at[0] < at[k + 1];
    }
    rest := seq(|tail|, k requires 0 <= k < |tail| => tail[k] - (i + 1));
  }

  lemma {:induction false} OrderedIsFound(lines: seq<string>, headings: seq<string>, at: seq<nat>)
    requires headings != [] && Ordered(lines, headings, at)
    ensures ParseLines(lines, headings).Ok?
    decreases |headings|
  {
    FindIsFirst(lines, headings[0]);
    var i := Find(lines, headings[0]).value;
    assert i <= at[0];
    if |headings| > 1 {
      var rest := OrderedTail(lines, headings, at, i);
      hide Ordered, Find, Sections;
      OrderedIsFound(lines[i + 1..], headings[1..], rest);
      SectionsNeedsRest(lines[i + 1..], headings);
    }
  }

  lemma {:induction false} FoundIsOrdered(lines: seq<string>, headings: seq<string>) returns (at: seq<nat>)
    requires headings != [] && ParseLines(lines, headings).Ok?
    ensures Ordered(lines, headings, at)
    decreases |headings|
  {
    FindIsFirst(lines, headings[0]);
    var i := Find(lines, headings[0]).value;
    at := [i];
    if |headings| > 1 {
      SectionsNeedsRest(lines[i + 1..], headings);
      var rest := FoundIsOrdered(lines[i + 1..], headings[1..]);
      at := at + Shift(rest, i + 1);
      OrderedCons(lines, headings, i, rest);
    }
  }

  lemma OrderedCons(lines: seq<string>, headings: seq<string>, first: nat, rest: seq<nat>)
    requires first < |lines| && headings != [] && Strip(lines[first]) == headings[0]
    requires Ordered(lines[first + 1..], headings[1..], rest)
    ensures Ordered(lines, headings, [first] + Shift(rest, first + 1))
  {
    OrderedAfterPrefix(lines[..first + 1], lines[first + 1..], headings[1..], rest);
    assert lines[..first + 1] + lines[first + 1..] == lines;
    var tail := Shift(rest, first + 1);
    var at := [first] + tail;
    forall k | 0 <= k < |at| ensures at[k] < |lines| && Strip(lines[at[k]]) == headings[k] {
      if k > 0 {
        assert at[k] == tail[k - 1] && headings[k] == headings[1..][k - 1];
      }
    }
  }

  lemma ParsesAfterPrefix(prefix: seq<string>, lines: seq<string>, headings: seq<string>)
    requires headings != [] && ParseLines(lines, headings).Ok?
    ensures ParseLines(prefix + lines, headings).Ok?
  {
    var at := FoundIsOrdered(lines, headings);
    OrderedAfterPrefix(prefix, lines, headings, at);
    OrderedIsFound(prefix + lines, headings, Shift(at, |prefix|));
  }

  /** Greedy first-match search succeeds exactly when the headings occur in order at all. */
  lemma ValidIffOrdered(text: string)
    ensures Parse(text).Ok? <==> exists at: seq<nat> :: Ordered(SplitLines(text), HEADINGS, at)
  {
    if Parse(text).Ok? {
      var at := FoundIsOrdered(SplitLines(text), HEADINGS);
    } else if exists at: seq<nat> :: Ordered(SplitLines(text), HEADINGS, at) {
      var at: seq<nat> :| Ordered(SplitLines(text), HEADINGS, at);
      OrderedIsFound(SplitLines(text), HEADINGS, at);
      assert false;
    }
  }

  // ---- What a successful parse guarantees about its bodies ----

  predicate NoHeading(body: Body, heading: string) {
    forall line :: line in body ==> Strip(line) != heading
  }

  predicate NoFact(body: Body) {
    forall line :: line in body ==> !IsFact(line)
  }

  predicate OneLiners(body: Body) {
    forall line :: line in body ==> '\n' !in line
  }

  ghost predicate BodiesClean(bodies: seq<Body>, headings: seq<string>) {
    && |bodies| == |headings|
    && (forall k :: 0 <= k < |bodies| ==> OneLiners(bodies[k]))
    && (forall k :: 0 <= k < |bodies| - 1 ==> NoHeading(bodies[k], headings[k + 1]))
    && (bodies != [] ==> NoFact(bodies[|bodies| - 1]))
  }

  lemma ConsClean(body: seq<string>, rest: seq<seq<string>>, headings: seq<string>)
    requires |headings| > 1 && BodiesClean(rest, headings[1..])
    requires OneLiners(body) && NoHeading(body, headings[1])
    ensures BodiesClean([body] + rest, headings)
  {
    var all := [body] + rest;
    forall k | 0 <= k < |all| - 1 ensures NoHeading(all[k], headings[k + 1]) {
      if k > 0 {
        assert all[k] == rest[k - 1] && headings[k + 1] == headings[1..][k];
      }
    }
    forall k | 0 <= k < |all| ensures OneLiners(all[k]) {
      if k > 0 {
        assert all[k] == rest[k - 1];
      }
    }
  }

  lemma {:induction false} SectionsAreClean(lines: seq<string>, headings: seq<string>)
    requires headings != [] && Sections(lines, headings).Ok?
    requires forall line :: line in lines ==> '\n' !in line
    ensures BodiesClean(Sections(lines, headings).value, headings)
    decreases |headings|
  {
    CutFactsIsPrefix(lines);
    if |headings| > 1 {
      FindIsFirst(lines, headings[1]);
      var i := Find(lines, headings[1]).value;
      SectionsAreClean(lines[i + 1..], headings[1..]);
      ConsClean(lines[..i], Sections(lines[i + 1..], headings[1..]).value, headings);
    }
  }

  lemma ParsedAreClean(lines: seq<string>, headings: seq<string>)
    requires headings != [] && ParseLines(lines, headings).Ok?
    requires forall line :: line in lines ==> '\n' !in line
    ensures BodiesClean(ParseLines(lines, headings).value, headings)
  {
    SectionsAreClean(lines[Find(lines, headings[0]).value + 1..], headings);
  }

  // ---- What a parse says about the lines ----

  lemma {:induction false} SectionsOfPrefix(lines: seq<string>, headings: seq<string>) returns (k: nat)
    requires headings != [] && Sections(lines, headings).Err?
    ensures 0 < k < |headings| && Sections(lines, headings).error == headings[k]
    ensures Sections(lines, headings[..k]).Ok? && Sections(lines, headings[..k + 1]).Err?
    decreases |headings|
  {
    k := 1;
    if Find(lines, headings[1]).Some? {
      var after := lines[Find(lines, headings[1]).value + 1..];
      var j := SectionsOfPrefix(after, headings[1..]);
      k := j + 1;
      assert headings[..k][1..] == headings[1..][..j] && headings[..k + 1][1..] == headings[1..][..j + 1];
      assert headings[..k][1] == headings[1] && headings[..k + 1][1] == headings[1];
    } else {
      assert |headings[..1]| == 1 && headings[..2][1] == headings[1];
    }
  }

  /** The heading that is reported missing is the first that cannot be found in order: all before it can. */
  lemma MissingIsFirst(lines: seq<string>, headings: seq<string>) returns (k: nat)
    requires headings != [] && ParseLines(lines, headings).Err?
    ensures k < |headings| && ParseLines(lines, headings).error == headings[k]
    ensures (k > 0 ==> ParseLines(lines, headings[..k]).Ok?) && ParseLines(lines, headings[..k + 1]).Err?
  {
    k := 0;
    if Find(lines, headings[0]).Some? {
      k := SectionsOfPrefix(lines[Find(lines, headings[0]).value + 1..], headings);
      assert headings[..k][0] == headings[0] && headings[..k + 1][0] == headings[0];
    } else {
      assert headings[..1][0] == headings[0];
    }
  }

  /** The last body ends at the first line that opens a fact block, or with the lines. */
  predicate EndsAtFacts(body: Body, lines: seq<string>) {
    && body <= lines && (forall i :: 0 <= i < |body| ==> !IsFact(lines[i]))
    && (|body| < |lines| ==> IsFact(lines[|body|]))
  }

  predicate Free(lines: seq<string>, from: nat, to: nat, heading: string) {
    forall i :: from <= i < to && i < |lines| ==> Strip(lines[i]) != heading
  }

  function AfterPlace(at: seq<nat>, k: nat): nat
    requires k <= |at|
  {
    if k == 0 then 0 else at[k - 1] + 1
  }

  /** No line between one place and the next is the heading that stands at the next. */
  predicate FirstPlaces(lines: seq<string>, headings: seq<string>, at: seq<nat>) {
    |at| == |headings| && forall k :: 0 <= k < |at| ==> Free(lines, AfterPlace(at, k), at[k], headings[k])
  }

  predicate BodyBetween(lines: seq<string>, from: nat, to: nat, body: Body) {
    from < to <= |lines| && body == lines[from + 1..to]
  }

  predicate LastBody(lines: seq<string>, from: nat, body: Body) {
    from < |lines| && EndsAtFacts(body, lines[from + 1..])
  }

  predicate BodiesBetween(lines: seq<string>, at: seq<nat>, bodies: seq<Body>) {
    && |bodies| == |at| && at != []
    && (forall k :: 0 <= k < |at| - 1 ==> BodyBetween(lines, at[k], at[k + 1], bodies[k]))
    && LastBody(lines, at[|at| - 1], bodies[|at| - 1])
  }

  /** Each heading stands at its place, the first such line after the place before, and each body between two places. */
  ghost predicate CutAt(lines: seq<string>, headings: seq<string>, at: seq<nat>, bodies: seq<Body>) {
    Ordered(lines, headings, at) && FirstPlaces(lines, headings, at) && BodiesBetween(lines, at, bodies)
  }

  lemma CutOnce(lines: seq<string>, headings: seq<string>, first: nat)
    requires |headings| == 1 && Find(lines, headings[0]) == Some(first)
    ensures CutAt(lines, headings, [first], [CutFacts(lines[first + 1..])])
  {
    FindIsFirst(lines, headings[0]);
    CutFactsIsPrefix(lines[first + 1..]);
  }

  lemma FreeShift(lines: seq<string>, n: nat, from: nat, to: nat, heading: string)
    requires n <= |lines| && Free(lines[n..], from, to, heading)
    ensures Free(lines, from + n, to + n, heading)
  {
    forall i | from + n <= i < to + n && i < |lines| ensures Strip(lines[i]) != heading {
      assert lines[n..][i - n] == lines[i];
    }
  }

  lemma FirstPlacesMore(lines: seq<string>, headings: seq<string>, first: nat, at: seq<nat>)
    requires |headings| > 1 && first < |lines| && Free(lines, 0, first, headings[0])
    requires FirstPlaces(lines[first + 1..], headings[1..], at)
    ensures FirstPlaces(lines, headings, [first] + Shift(at, first + 1))
  {
    var all, n := [first] + Shift(at, first + 1), first + 1;
    hide Free;
    forall k | 0 <= k < |all| ensures Free(lines, AfterPlace(all, k), all[k], headings[k]) {
      if k > 0 {
        assert Free(lines[n..], AfterPlace(at, k - 1), at[k - 1], headings[1..][k - 1]);
        FreeShift(lines, n, AfterPlace(at, k - 1), at[k - 1], headings[k]);
        assert all[k] == at[k - 1] + n && AfterPlace(all, k) == AfterPlace(at, k - 1) + n;
      }
    }
  }

  lemma BodyShift(lines: seq<string>, n: nat, from: nat, to: nat, body: Body)
    requires n <= |lines|
    ensures BodyBetween(lines[n..], from, to, body) ==> BodyBetween(lines, from + n, to + n, body)
    ensures LastBody(lines[n..], from, body) ==> LastBody(lines, from + n, body)
  {
    if from < |lines[n..]| {
      assert lines[n..][from + 1..] == lines[from + n + 1..];
    }
    if from < to <= |lines[n..]| {
      assert lines[n..][from + 1..to] == lines[from + n + 1..to + n];
    }
  }

  /** The places and bodies of the rest, moved behind a first one. */
  lemma BodyMoved(lines: seq<string>, n: nat, at: seq<nat>, bodies: seq<Body>, k: nat)
    requires n <= |lines| && BodiesBetween(lines[n..], at, bodies) && k < |at|
    ensures if k + 1 < |at| then BodyBetween(lines, at[k] + n, at[k + 1] + n, bodies[k]) else LastBody(lines, at[k] + n, bodies[k])
  {
    hide BodyBetween, LastBody;
    if k + 1 < |at| {
      BodyShift(lines, n, at[k], at[k + 1], bodies[k]);
    } else {
      BodyShift(lines, n, at[k], 0, bodies[k]);
    }
  }

  lemma BodyOfAll(lines: seq<string>, first: nat, at: seq<nat>, bodies: seq<Body>, k: nat)
    requires first < |lines| && BodiesBetween(lines[first + 1..], at, bodies) && at[0] < |lines| - first - 1 && k < |at|
    ensures var all, whole := [first] + Shift(at, first + 1), [lines[first + 1..first + 1 + at[0]]] + bodies;
            BodyBetween(lines, all[k], all[k + 1], whole[k])
  {
    if k > 0 {
      BodyMoved(lines, first + 1, at, bodies, k - 1);
    }
    hide BodiesBetween;
  }

  lemma BodiesBetweenMore(lines: seq<string>, tail: seq<string>, first: nat, at: seq<nat>, bodies: seq<Body>)
    requires first < |lines| && tail == lines[first + 1..] && BodiesBetween(tail, at, bodies) && at[0] < |tail|
    ensures BodiesBetween(lines, [first] + Shift(at, first + 1), [tail[..at[0]]] + bodies)
  {
    BodyMoved(lines, first + 1, at, bodies, |at| - 1);
    assert tail[..at[0]] == lines[first + 1..first + 1 + at[0]];
    hide BodyBetween, LastBody;
    var all, whole := [first] + Shift(at, first + 1), [tail[..at[0]]] + bodies;
    forall k | 0 <= k < |at| ensures BodyBetween(lines, all[k], all[k + 1], whole[k]) {
      BodyOfAll(lines, first, at, bodies, k);
    }
  }

  lemma FirstIsFree(lines: seq<string>, heading: string, first: nat)
    requires Find(lines, heading) == Some(first)
    ensures first < |lines| && Strip(lines[first]) == heading && Free(lines, 0, first, heading)
  {
    FindIsFirst(lines, heading);
  }

  lemma CutMore(lines: seq<string>, tail: seq<string>, headings: seq<string>, first: nat, at: seq<nat>, bodies: seq<Body>)
    requires |headings| > 1 && first < |lines| && Find(lines, headings[0]) == Some(first) && tail == lines[first + 1..]
    requires CutAt(tail, headings[1..], at, bodies) && at[0] < |tail|
    ensures CutAt(lines, headings, [first] + Shift(at, first + 1), [tail[..at[0]]] + bodies)
  {
    hide Ordered, FirstPlaces, BodiesBetween, Find, Free, Shift;
    FirstIsFree(lines, headings[0], first);
    OrderedCons(lines, headings, first, at);
    FirstPlacesMore(lines, headings, first, at);
    BodiesBetweenMore(lines, tail, first, at, bodies);
  }

  /** A successful parse cuts the lines at the first places where the headings occur in order. */
  lemma {:induction false} BodiesAreBetween(lines: seq<string>, headings: seq<string>) returns (at: seq<nat>)
    requires headings != [] && ParseLines(lines, headings).Ok?
    ensures CutAt(lines, headings, at, ParseLines(lines, headings).value)
    decreases |headings|
  {
    var first := Find(lines, headings[0]).value;
    ParseIs(lines, headings, first);
    at := [first];
    if |headings| == 1 {
      CutOnce(lines, headings, first);
    } else {
      var tail, rest := lines[first + 1..], headings[1..];
      SectionsNeedsRest(tail, headings);
      hide Sections, Find, CutAt, ParseLines, Shift;
      var places := BodiesAreBetween(tail, rest);
      FirstBody(lines, tail, headings, first, places);
      CutMore(lines, tail, headings, first, places, ParseLines(tail, rest).value);
      at := at + Shift(places, first + 1);
    }
  }

  lemma ParseIs(lines: seq<string>, headings: seq<string>, first: nat)
    requires headings != [] && first < |lines| && Find(lines, headings[0]) == Some(first)
    ensures ParseLines(lines, headings) == Sections(lines[first + 1..], headings)
  {
    hide Find, Sections;
  }

  lemma ParseUnfold(lines: seq<string>, tail: seq<string>, headings: seq<string>, rest: seq<string>, first: nat, i: nat)
    requires |headings| > 1 && first < |lines| && Find(lines, headings[0]) == Some(first)
    requires tail == lines[first + 1..] && rest == headings[1..] && i < |tail| && Find(tail, rest[0]) == Some(i)
    ensures ParseLines(lines, headings) == With([tail[..i]], ParseLines(tail, rest))
  {
    hide Sections, Find, With, ParseLines;
    ParseIs(lines, headings, first);
    ParseIs(tail, rest, i);
    SectionsUnfold(tail, headings, i);
  }

  lemma FirstBody(lines: seq<string>, tail: seq<string>, headings: seq<string>, first: nat, at: seq<nat>)
    requires |headings| > 1 && first < |lines| && Find(lines, headings[0]) == Some(first) && tail == lines[first + 1..]
    requires ParseLines(tail, headings[1..]).Ok? && CutAt(tail, headings[1..], at, ParseLines(tail, headings[1..]).value)
    ensures at[0] < |tail|
    ensures ParseLines(lines, headings) == Ok([tail[..at[0]]] + ParseLines(tail, headings[1..]).value)
  {
    FirstPlaceIsFound(tail, headings[1..], at);
    hide CutAt, Find, ParseLines;
    ParseUnfold(lines, tail, headings, headings[1..], first, at[0]);
  }

  lemma FirstPlaceIsFound(lines: seq<string>, headings: seq<string>, at: seq<nat>)
    requires headings != [] && Ordered(lines, headings, at) && FirstPlaces(lines, headings, at)
    ensures at[0] < |lines| && Find(lines, headings[0]) == Some(at[0])
  {
    assert Free(lines, AfterPlace(at, 0), at[0], headings[0]);
    FindAt(lines, headings[0], at[0]);
  }
}
