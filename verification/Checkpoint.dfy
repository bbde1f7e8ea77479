/** Printing a checkpoint within a character budget, and what a later parse reads back. */
module Checkpoint {
  import opened Wrappers
  import opened Strings
  import opened SummaryParser

  /** What a body says: its text up to outer whitespace. */
  function Meaning(body: Body): string {
    Strip(Join(body))
  }

  function Meanings(bodies: seq<Body>): seq<string> {
    seq(|bodies|, k requires 0 <= k < |bodies| => Meaning(bodies[k]))
  }

  function Section(heading: string, body: string): string {
    heading + "\n" + body
  }

  function Print(headings: seq<string>, bodies: seq<string>): string
    requires |headings| == |bodies| > 0
  {
    if |headings| == 1 then Section(headings[0], bodies[0])
    else Section(headings[0], bodies[0]) + "\n" + Print(headings[1..], bodies[1..])
  }

  /** At most n characters, with trailing whitespace dropped after the cut. */
  function Clip(text: string, n: nat): string {
    RStrip(if n < |text| then text[..n] else text)
  }

  /** The longest beginning of at most n characters, but for whitespace left at its end. */
  lemma ClipIsPrefix(text: string, n: nat)
    ensures Clip(text, n) <= text && |Clip(text, n)| <= n
    ensures Clip(text, n) == "" || !IsSpace(Clip(text, n)[|Clip(text, n)| - 1])
    ensures forall i :: |Clip(text, n)| <= i < n && i < |text| ==> IsSpace(text[i])
  {
    var cut := if n < |text| then text[..n] else text;
    RStripIsPrefix(cut);
    RStripDropsSpace(cut);
    hide RStrip;
  }

  lemma {:induction false} RStripDropsSpace(s: string)
    ensures RStrip(s) <= s && (RStrip(s) == "" || !IsSpace(RStrip(s)[|RStrip(s)| - 1]))
    ensures forall i :: |RStrip(s)| <= i < |s| ==> IsSpace(s[i])
  {
    if s != "" && IsSpace(s[|s| - 1]) {
      RStripDropsSpace(s[..|s| - 1]);
    }
  }

  function Clips(texts: seq<string>, n: nat): seq<string> {
    seq(|texts|, k requires 0 <= k < |texts| => Clip(texts[k], n))
  }

  // ---- Headings ----

  predicate GoodHeading(h: string) {
    h != "" && '\n' !in h && Trimmed(h) && h[0] != '<'
  }

  predicate GoodHeadings(headings: seq<string>) {
    forall k :: 0 <= k < |headings| ==> GoodHeading(headings[k])
  }

  lemma HeadingsAreGood()
    ensures GoodHeadings(HEADINGS) && |HEADINGS| == 9
  {
    assert GoodHeading(HEADINGS[0]);
    assert GoodHeading(HEADINGS[1]);
    assert GoodHeading(HEADINGS[2]);
    assert GoodHeading(HEADINGS[3]);
    assert GoodHeading(HEADINGS[4]);
    assert GoodHeading(HEADINGS[5]);
    assert GoodHeading(HEADINGS[6]);
    assert GoodHeading(HEADINGS[7]);
    assert GoodHeading(HEADINGS[8]);
  }

  // ---- The lines of a printed checkpoint ----

  /** What is appended after the sections: nothing, or a blank line and a fact block. */
  predicate IsExtra(extra: string) {
    extra == "" || (|extra| >= 3 && extra[..2] == "\n\n" && extra[2] == '<')
  }

  function PrintedLines(headings: seq<string>, bodies: seq<string>, extra: string): seq<string>
    requires |headings| == |bodies| > 0
  {
    SplitLines(Print(headings, bodies) + extra)
  }

  /** The printed lines after the first heading. */
  function LinesAfter(headings: seq<string>, bodies: seq<string>, extra: string): seq<string>
    requires |headings| == |bodies| > 0
  {
    if |headings| == 1 then SplitLines(bodies[0] + extra)
    else Pieces(bodies[0]) + PrintedLines(headings[1..], bodies[1..], extra)
  }

  lemma PrintedLinesShape(headings: seq<string>, bodies: seq<string>, extra: string)
    requires |headings| == |bodies| > 0 && GoodHeading(headings[0])
    ensures PrintedLines(headings, bodies, extra) == [headings[0]] + LinesAfter(headings, bodies, extra)
  {
    PiecesOfOneLine(headings[0]);
    if |headings| == 1 {
      assert headings[0] + "\n" + bodies[0] + extra == headings[0] + "\n" + (bodies[0] + extra);
      SplitLinesAppend(headings[0], bodies[0] + extra);
    } else {
      var rest := Print(headings[1..], bodies[1..]) + extra;
      assert Print(headings, bodies) + extra == headings[0] + "\n" + (bodies[0] + "\n" + rest);
      SplitLinesAppend(headings[0], bodies[0] + "\n" + rest);
      SplitLinesAppend(bodies[0], rest);
    }
  }

  lemma ParsePrinted(headings: seq<string>, bodies: seq<string>, extra: string)
    requires |headings| == |bodies| > 0 && GoodHeading(headings[0])
    ensures ParseLines(PrintedLines(headings, bodies, extra), headings)
         == Sections(LinesAfter(headings, bodies, extra), headings)
  {
    PrintedLinesShape(headings, bodies, extra);
    TrimmedIsStripped(headings[0]);
    var lines := PrintedLines(headings, bodies, extra);
    assert lines[0] == headings[0] && lines[1..] == LinesAfter(headings, bodies, extra);
  }

  /** Whatever the bodies contain, every heading is still found, in order. */
  lemma {:induction false} PrintedParses(headings: seq<string>, bodies: seq<string>, extra: string)
    requires |headings| == |bodies| > 0 && GoodHeadings(headings)
    ensures ParseLines(PrintedLines(headings, bodies, extra), headings).Ok?
    ensures Sections(LinesAfter(headings, bodies, extra), headings).Ok?
    decreases |headings|
  {
    assert GoodHeading(headings[0]);
    ParsePrinted(headings, bodies, extra);
    if |headings| > 1 {
      assert GoodHeadings(headings[1..]);
      PrintedParses(headings[1..], bodies[1..], extra);
      ParsesAfterPrefix(Pieces(bodies[0]), PrintedLines(headings[1..], bodies[1..], extra), headings[1..]);
      SectionsNeedsRest(LinesAfter(headings, bodies, extra), headings);
    }
  }

  // ---- Reading back ----

  predicate AvoidsHeading(text: string, heading: string) {
    forall line :: line in Pieces(text) ==> Strip(line) != heading
  }

  predicate AvoidsFacts(text: string) {
    forall line :: line in Pieces(text) ==> !IsFact(line)
  }

  /** Texts a parse could have produced: trimmed, and free of what would end them early. */
  predicate Readable(texts: seq<string>, headings: seq<string>) {
    && |texts| == |headings| && texts != []
    && (forall k :: 0 <= k < |texts| ==> Trimmed(texts[k]))
    && (forall k :: 0 <= k < |texts| - 1 ==> AvoidsHeading(texts[k], headings[k + 1]))
    && AvoidsFacts(texts[|texts| - 1])
  }

  lemma ClipFits(text: string, n: nat)
    requires Trimmed(text)
    ensures |text| <= n ==> Clip(text, n) == text
    ensures |Clip(text, n)| <= n
  {
    if |text| <= n {
      TrimmedIsStripped(text);
    }
  }

  lemma FactLine(text: string)
    requires text != "" && text[0] == '<'
    ensures SplitLines(text) != [] && IsFact(SplitLines(text)[0])
  {
    var pieces := Pieces(text);
    assert pieces[0][0] == '<';
    RStripKeepsHead(pieces[0]);
  }

  lemma {:induction false} RStripKeepsHead(s: string)
    requires s != "" && !IsSpace(s[0])
    ensures RStrip(s) != "" && RStrip(s)[0] == s[0]
  {
    if IsSpace(s[|s| - 1]) {
      RStripKeepsHead(s[..|s| - 1]);
    }
  }

  lemma LastSectionAlone(text: string)
    ensures CutFacts(SplitLines(text)) <= Pieces(text)
    ensures AvoidsFacts(text) ==> CutFacts(SplitLines(text)) == SplitLines(text)
  {
    var lines := SplitLines(text);
    assert lines <= Pieces(text);
    CutFactsAt(lines, |lines|);
    assert lines[..|lines|] == lines;
  }

  lemma BlankLineBetween(text: string, block: string)
    ensures text + ("\n\n" + block) == text + "\n" + ("" + "\n" + block)
  {
  }

  lemma LinesWithFacts(text: string, block: string)
    ensures SplitLines(text + ("\n\n" + block)) == Pieces(text) + [""] + SplitLines(block)
  {
    BlankLineBetween(text, block);
    SplitLinesAppend(text, "" + "\n" + block);
    SplitLinesAppend("", block);
    assert Pieces("") == [""];
    AppendAssociates(Pieces(text), [""], SplitLines(block));
    hide Pieces, SplitLines;
  }

  /** Before a fact block only the text itself and one blank line remain. */
  lemma LastSectionBeforeFacts(text: string, extra: string)
    requires IsExtra(extra) && extra != ""
    ensures CutFacts(SplitLines(text + extra)) <= Pieces(text) + [""]
    ensures AvoidsFacts(text) ==> CutFacts(SplitLines(text + extra)) == Pieces(text) + [""]
  {
    var head, block := Pieces(text) + [""], extra[2..];
    assert extra == "\n\n" + block;
    LinesWithFacts(text, block);
    FactLine(block);
    BlankIsNoFact();
    CutAtBlock(head, SplitLines(block));
    if AvoidsFacts(text) {
      forall i | 0 <= i < |head| ensures !IsFact(head[i]) {
        assert i < |Pieces(text)| ==> head[i] in Pieces(text);
      }
    }
  }

  lemma CutAtBlock(head: Body, block: Body)
    requires block != [] && IsFact(block[0])
    ensures CutFacts(head + block) <= head
    ensures (forall i :: 0 <= i < |head| ==> !IsFact(head[i])) ==> CutFacts(head + block) == head
  {
    var lines := head + block;
    assert lines[|head|] == block[0] && lines[..|head|] == head;
    CutFactsAt(lines, |head|);
  }

  lemma BlankIsNoFact()
    ensures !IsFact("")
  {
  }

  lemma MeaningOfPrefix(body: Body, lines: seq<string>)
    requires body <= lines
    ensures |Meaning(body)| <= |Join(lines)|
  {
    JoinPrefix(lines, |body|);
    assert lines[..|body|] == body;
    StripIsTrimmed(Join(body));
  }

  lemma MeaningWithBlank(text: string)
    ensures Meaning(Pieces(text) + [""]) == Strip(text)
  {
    JoinSnoc(Pieces(text), "");
    JoinPieces(text);
    assert text + "\n" + "" == text + ['\n'];
    StripSnoc(text, '\n');
  }

  lemma MeaningOfLines(text: string)
    ensures Meaning(SplitLines(text)) == Strip(text)
  {
    JoinPieces(text);
    var p := Pieces(text);
    var last := |p| - 1;
    if p[last] == "" && last > 0 {
      JoinSnoc(p[..last], "");
      assert p == p[..last] + [""];
      assert Join(p[..last]) + "\n" + "" == Join(p[..last]) + ['\n'];
      StripSnoc(Join(p[..last]), '\n');
    } else if p[last] == "" {
      assert p[..last] == [] && p == [""];
    }
  }

  /** The last section reads back as the text itself, and never as more than the text. */
  lemma LastSectionMeaning(text: string, extra: string)
    requires IsExtra(extra) && Trimmed(text)
    ensures |Meaning(CutFacts(SplitLines(text + extra)))| <= |text|
    ensures AvoidsFacts(text) ==> Meaning(CutFacts(SplitLines(text + extra))) == text
  {
    JoinPieces(text);
    TrimmedIsStripped(text);
    var body := CutFacts(SplitLines(text + extra));
    if extra == "" {
      assert text + extra == text;
      LastSectionAlone(text);
      MeaningOfLines(text);
    } else {
      LastSectionBeforeFacts(text, extra);
      MeaningWithBlank(text);
    }
    if body <= Pieces(text) {
      MeaningOfPrefix(body, Pieces(text));
    } else {
      assert body == Pieces(text) + [""];
    }
  }

  /** An inner section ends at its heading or earlier, and exactly there when nothing looks alike. */
  lemma InnerSection(text: string, heading: string, rest: seq<string>)
    requires GoodHeading(heading) && rest != [] && rest[0] == heading
    ensures var found := Find(Pieces(text) + rest, heading);
            && found.Some? && found.value <= |Pieces(text)|
            && |Meaning((Pieces(text) + rest)[..found.value])| <= |text|
            && (AvoidsHeading(text, heading) ==>
                  found.value == |Pieces(text)| && Meaning((Pieces(text) + rest)[..found.value]) == Strip(text))
  {
    var lines, n := Pieces(text) + rest, |Pieces(text)|;
    assert lines[n] == heading;
    TrimmedIsStripped(heading);
    FindIsFirst(lines, heading);
    var found := Find(lines, heading);
    var i := found.value;
    assert lines[..i] == Pieces(text)[..i];
    JoinPieces(text);
    MeaningOfPrefix(lines[..i], Pieces(text));
    if AvoidsHeading(text, heading) {
      forall j | 0 <= j < n ensures Strip(lines[j]) != heading {
        assert lines[j] in Pieces(text);
      }
      FindAt(lines, heading, n);
      assert lines[..n] == Pieces(text);
    }
  }

  function Reparsed(headings: seq<string>, texts: seq<string>, budget: nat, extra: string): Result<seq<Body>, string>
    requires |headings| == |texts| > 0
  {
    Sections(LinesAfter(headings, Clips(texts, budget), extra), headings)
  }

  lemma SectionsStep(lines: seq<string>, headings: seq<string>)
    requires |headings| > 1 && Sections(lines, headings).Ok?
    ensures Find(lines, headings[1]).Some?
    ensures var i, r := Find(lines, headings[1]).value, Sections(lines, headings).value;
            r != [] && r[0] == lines[..i] && Sections(lines[i + 1..], headings[1..]) == Ok(r[1..])
  {
    var i := Find(lines, headings[1]).value;
    var rest := Sections(lines[i + 1..], headings[1..]).value;
    assert ([lines[..i]] + rest)[1..] == rest;
  }

  /** A clipped text no longer says the same, and an unclipped one is found whole with everything after it. */
  lemma ClippedSection(text: string, budget: nat, heading: string, after: seq<string>)
    requires GoodHeading(heading) && Trimmed(text) && AvoidsHeading(text, heading)
    ensures var lines := Pieces(Clip(text, budget)) + ([heading] + after);
            var found := Find(lines, heading);
            && found.Some?
            && (|text| <= budget ==> Meaning(lines[..found.value]) == text && lines[found.value + 1..] == after)
            && (|text| > budget ==> Meaning(lines[..found.value]) != text)
  {
    InnerSection(Clip(text, budget), heading, [heading] + after);
    ClipFits(text, budget);
    TrimmedIsStripped(text);
    var n := |Pieces(Clip(text, budget))|;
    assert (Pieces(Clip(text, budget)) + ([heading] + after))[n + 1..] == after;
    hide Meaning, Pieces, Find, Strip, RStrip;
  }

  lemma ReparsedStep(headings: seq<string>, texts: seq<string>, budget: nat, extra: string)
    requires |headings| == |texts| > 1 && GoodHeadings(headings) && Readable(texts, headings)
    requires Reparsed(headings, texts, budget, extra).Ok?
    ensures var r := Reparsed(headings, texts, budget, extra).value;
            && r != []
            && (|texts[0]| <= budget ==>
                 && Meaning(r[0]) == texts[0]
                 && Reparsed(headings[1..], texts[1..], budget, extra) == Ok(r[1..]))
            && (|texts[0]| > budget ==> Meaning(r[0]) != texts[0])
  {
    var bodies := Clips(texts, budget);
    assert bodies[1..] == Clips(texts[1..], budget) && bodies[0] == Clip(texts[0], budget);
    assert GoodHeading(headings[1]);
    var after := LinesAfter(headings[1..], bodies[1..], extra);
    PrintedLinesShape(headings[1..], bodies[1..], extra);
    assert LinesAfter(headings, bodies, extra) == Pieces(bodies[0]) + ([headings[1]] + after);
    hide LinesAfter, PrintedLines, Clip, Pieces, Meaning, Find, Sections, Strip;
    SectionsStep(Pieces(bodies[0]) + ([headings[1]] + after), headings);
    ClippedSection(texts[0], budget, headings[1], after);
  }

  predicate Within(texts: seq<string>, n: nat) {
    forall k :: 0 <= k < |texts| ==> |texts[k]| <= n
  }

  lemma WithinCons(texts: seq<string>, n: nat)
    requires texts != []
    ensures Within(texts, n) <==> |texts[0]| <= n && Within(texts[1..], n)
  {
    if |texts[0]| <= n && Within(texts[1..], n) {
      forall k | 0 <= k < |texts| ensures |texts[k]| <= n {
        assert k > 0 ==> texts[1..][k - 1] == texts[k];
      }
    }
  }

  lemma MeaningsCons(bodies: seq<Body>, texts: seq<string>)
    requires bodies != [] && texts != []
    ensures Meanings(bodies) == texts <==> Meaning(bodies[0]) == texts[0] && Meanings(bodies[1..]) == texts[1..]
  {
    var ms := Meanings(bodies);
    assert ms[0] == Meaning(bodies[0]) && ms[1..] == Meanings(bodies[1..]);
    assert ms == [ms[0]] + ms[1..] && texts == [texts[0]] + texts[1..];
  }

  lemma ReparsedLast(headings: seq<string>, texts: seq<string>, budget: nat, extra: string)
    requires |headings| == |texts| == 1 && Readable(texts, headings) && IsExtra(extra)
    ensures var r := Reparsed(headings, texts, budget, extra);
            r.Ok? && |r.value| == 1 && (Meaning(r.value[0]) == texts[0] <==> |texts[0]| <= budget)
  {
    ClipFits(texts[0], budget);
    RStripTrims(texts[0], budget);
    LastSectionMeaning(Clip(texts[0], budget), extra);
  }

  /** Reading back gives the same meanings exactly when no section was too long. */
  lemma {:induction false} ReparseIffUntruncated(headings: seq<string>, texts: seq<string>, budget: nat, extra: string)
    requires |headings| == |texts| > 0 && GoodHeadings(headings) && Readable(texts, headings) && IsExtra(extra)
    ensures Reparsed(headings, texts, budget, extra).Ok?
    ensures Meanings(Reparsed(headings, texts, budget, extra).value) == texts <==> Within(texts, budget)
    decreases |headings|
  {
    PrintedParses(headings, Clips(texts, budget), extra);
    var r := Reparsed(headings, texts, budget, extra).value;
    WithinCons(texts, budget);
    if |headings| == 1 {
      ReparsedLast(headings, texts, budget, extra);
      MeaningsCons(r, texts);
      assert r[1..] == [] && texts[1..] == [];
    } else {
      ReparsedStep(headings, texts, budget, extra);
      MeaningsCons(r, texts);
      if |texts[0]| <= budget {
        assert GoodHeadings(headings[1..]);
        ReadableTail(headings, texts);
        ReparseIffUntruncated(headings[1..], texts[1..], budget, extra);
      }
    }
  }

  lemma ReadableTail(headings: seq<string>, texts: seq<string>)
    requires |headings| > 1 && Readable(texts, headings)
    ensures Readable(texts[1..], headings[1..])
  {
    forall k | 0 <= k < |texts[1..]| - 1 ensures AvoidsHeading(texts[1..][k], headings[1..][k + 1]) {
      assert texts[1..][k] == texts[k + 1] && headings[1..][k + 1] == headings[k + 2];
      assert AvoidsHeading(texts[k + 1], headings[k + 1 + 1]);
    }
  }

  lemma RStripTrims(text: string, n: nat)
    requires Trimmed(text)
    ensures Trimmed(Clip(text, n))
  {
    RStripIsPrefix(if n < |text| then text[..n] else text);
  }

  /** The meanings of a parsed summary satisfy everything reading back needs. */
  lemma ParsedIsReadable(text: string)
    requires Parse(text).Ok?
    ensures Readable(Meanings(Parse(text).value), HEADINGS)
  {
    HeadingsAreGood();
    PiecesHaveNoNewline(text);
    ParsedAreClean(SplitLines(text), HEADINGS);
    BodiesAreReadable(Parse(text).value, HEADINGS);
  }

  lemma BodiesAreReadable(bodies: seq<Body>, headings: seq<string>)
    requires bodies != [] && GoodHeadings(headings) && BodiesClean(bodies, headings)
    ensures Readable(Meanings(bodies), headings)
  {
    var texts := Meanings(bodies);
    forall k | 0 <= k < |texts| ensures Trimmed(texts[k]) {
      StripIsTrimmed(Join(bodies[k]));
    }
    forall k | 0 <= k < |texts| - 1 ensures AvoidsHeading(texts[k], headings[k + 1]) {
      assert OneLiners(bodies[k]) && NoHeading(bodies[k], headings[k + 1]) && GoodHeading(headings[k + 1]);
      MeaningAvoidsHeading(bodies[k], headings[k + 1]);
    }
    MeaningAvoidsFacts(bodies[|bodies| - 1]);
  }

  lemma PiecesOfBody(body: Body)
    requires OneLiners(body)
    ensures Pieces(Join(body)) == if body == [] then [""] else body
  {
    if body != [] {
      PiecesJoin(body);
    }
  }

  lemma MeaningAvoidsHeading(body: Body, heading: string)
    requires OneLiners(body) && NoHeading(body, heading) && heading != ""
    ensures AvoidsHeading(Meaning(body), heading)
  {
    var ok := line => line != heading;
    PiecesOfBody(body);
    assert AllLines(Join(body), ok);
    AllLinesStrip(Join(body), ok);
    forall line | line in Pieces(Meaning(body)) ensures Strip(line) != heading {
      assert ok(Strip(line));
    }
  }

  lemma MeaningAvoidsFacts(body: Body)
    requires OneLiners(body) && NoFact(body)
    ensures AvoidsFacts(Meaning(body))
  {
    var ok := (line: string) => line == "" || line[0] != '<';
    PiecesOfBody(body);
    forall line | line in Pieces(Join(body)) ensures ok(Strip(line)) {
      assert line in body ==> !IsFact(line);
    }
    assert AllLines(Join(body), ok);
    AllLinesStrip(Join(body), ok);
    forall line | line in Pieces(Meaning(body)) ensures !IsFact(line) {
      assert ok(Strip(line));
    }
  }

  // ---- Printing within the budget ----

  function SumLengths(headings: seq<string>): nat {
    if headings == [] then 0 else |headings[0]| + 1 + SumLengths(headings[1..])
  }

  function SectionBudget(maxChars: nat): nat {
    Max(80, (maxChars - SumLengths(HEADINGS)) / |HEADINGS|)
  }

  /** The sections with every body clipped; an unparsable summary is simply cut. */
  function BoundedSections(summary: string, maxChars: nat): string {
    match Parse(summary)
    case Err(_) => if maxChars < |summary| then summary[..maxChars] else summary
    case Ok(bodies) =>
      SectionsHaveBodies(SplitLines(summary), HEADINGS);
      Print(HEADINGS, Clips(Meanings(bodies), SectionBudget(maxChars)))
  }

  /** A beginning of the text within the budget, the text itself if that fits; only whitespace was left out too much. */
  predicate IsClip(clip: string, text: string, n: nat) {
    && clip <= text && |clip| <= n && (|text| <= n ==> clip == text)
    && forall i :: |clip| <= i < n && i < |text| ==> IsSpace(text[i])
  }

  predicate AreClips(clips: seq<string>, texts: seq<string>, n: int) {
    n >= 0 && |clips| == |texts| && forall k :: 0 <= k < |clips| ==> IsClip(clips[k], texts[k], n)
  }

  lemma ClipIsClip(text: string, n: nat)
    requires Trimmed(text)
    ensures IsClip(Clip(text, n), text, n)
  {
    ClipIsPrefix(text, n);
    ClipFits(text, n);
    hide Clip;
  }

  /** A summary that does not parse is cut like any text. */
  lemma UnparsedIsCut(summary: string, maxChars: nat)
    requires Parse(summary).Err?
    ensures BoundedSections(summary, maxChars) == summary[..if maxChars < |summary| then maxChars else |summary|]
  {
    hide Parse;
  }

  /** Every heading, and under each what its section said, cut to an equal share of the budget. */
  lemma BoundedSectionsKeep(summary: string, maxChars: nat) returns (clipped: seq<string>)
    requires Parse(summary).Ok?
    ensures |clipped| == |HEADINGS| && BoundedSections(summary, maxChars) == Print(HEADINGS, clipped)
    ensures AreClips(clipped, Meanings(Parse(summary).value), Max(80, (maxChars - 137) / 9))
  {
    HeadingsLength();
    ParsedIsReadable(summary);
    SectionsHaveBodies(SplitLines(summary), HEADINGS);
    var texts := Meanings(Parse(summary).value);
    var n: nat := SectionBudget(maxChars);
    clipped := Clips(texts, n);
    hide Clip, Parse, Meanings, Print, AvoidsHeading, AvoidsFacts, SumLengths, Trimmed, IsClip;
    forall k | 0 <= k < |texts| ensures IsClip(clipped[k], texts[k], n) {
      ClipIsClip(texts[k], n);
    }
  }

  lemma SectionsHaveBodies(lines: seq<string>, headings: seq<string>)
    requires headings != [] && ParseLines(lines, headings).Ok?
    ensures |ParseLines(lines, headings).value| == |headings|
  {
    BodyPerHeading(lines[Find(lines, headings[0]).value + 1..], headings);
  }

  lemma {:induction false} BodyPerHeading(lines: seq<string>, headings: seq<string>)
    requires headings != [] && Sections(lines, headings).Ok?
    ensures |Sections(lines, headings).value| == |headings|
    decreases |headings|
  {
    if |headings| > 1 {
      BodyPerHeading(lines[Find(lines, headings[1]).value + 1..], headings[1..]);
    }
  }

  lemma {:induction false} PrintLength(headings: seq<string>, bodies: seq<string>, n: nat)
    requires |headings| == |bodies| > 0
    requires forall k :: 0 <= k < |bodies| ==> |bodies[k]| <= n
    ensures |Print(headings, bodies)| <= SumLengths(headings) + |headings| * n + |headings| - 1
    decreases |headings|
  {
    if |headings| > 1 {
      PrintLength(headings[1..], bodies[1..], n);
      assert |headings| * n == n + (|headings| - 1) * n;
    } else {
      assert headings[1..] == [];
    }
  }

  lemma HeadingsLength()
    ensures SumLengths(HEADINGS) == 137
  {
    assert HEADINGS[8..][1..] == [];
    assert SumLengths(HEADINGS[8..]) == 20;
    assert HEADINGS[7..][1..] == HEADINGS[8..];
    assert SumLengths(HEADINGS[7..]) == 34;
    assert HEADINGS[6..][1..] == HEADINGS[7..];
    assert SumLengths(HEADINGS[6..]) == 51;
    assert HEADINGS[5..][1..] == HEADINGS[6..];
    assert SumLengths(HEADINGS[5..]) == 63;
    assert HEADINGS[4..][1..] == HEADINGS[5..];
    assert SumLengths(HEADINGS[4..]) == 79;
    assert HEADINGS[3..][1..] == HEADINGS[4..];
    assert SumLengths(HEADINGS[3..]) == 88;
    assert HEADINGS[2..][1..] == HEADINGS[3..];
    assert SumLengths(HEADINGS[2..]) == 100;
    assert HEADINGS[1..][1..] == HEADINGS[2..];
    assert SumLengths(HEADINGS[1..]) == 129;
  }

  lemma PrintedFits(texts: seq<string>, n: nat)
    requires Readable(texts, HEADINGS)
    ensures |Print(HEADINGS, Clips(texts, n))| <= 145 + 9 * n
  {
    HeadingsLength();
    var bodies := Clips(texts, n);
    forall k | 0 <= k < |texts| ensures |bodies[k]| <= n {
      ClipFits(texts[k], n);
    }
    PrintLength(HEADINGS, bodies, n);
  }

  /** Half the budget for the sections always leaves them within the whole. */
  lemma SectionsFit(summary: string, maxChars: nat)
    requires maxChars >= 1024
    ensures |BoundedSections(summary, maxChars / 2)| <= maxChars
  {
    if Parse(summary).Ok? {
      HeadingsLength();
      ParsedIsReadable(summary);
      var n := SectionBudget(maxChars / 2);
      assert 9 * n + 145 <= maxChars;
      PrintedFits(Meanings(Parse(summary).value), n);
    }
  }

  // ---- Fact blocks ----

  // Rendering of the mechanical facts: the keys kept and the keys left out.
  type FactsDump = (seq<string>, seq<string>) -> string

  datatype Details = Details(readFiles: seq<string>, modifiedFiles: seq<string>, factKeys: seq<string>)

  function Tag(tag: string, kept: seq<string>): string {
    "<" + tag + ">\n" + Join(kept) + "\n</" + tag + ">"
  }

  function First100(values: seq<string>): seq<string> {
    if |values| <= 100 then values else values[..100]
  }

  /** How many leading values still fit between the tags. */
  function FittingCount(tag: string, values: seq<string>, remaining: int, k: nat): (n: nat)
    requires k <= |values|
    ensures k <= n <= |values|
    ensures n < |values| ==> |Tag(tag, values[..n + 1])| > remaining
    ensures forall j :: k < j <= n ==> |Tag(tag, values[..j])| <= remaining
    decreases |values| - k
  {
    if k == |values| || |Tag(tag, values[..k + 1])| > remaining then k
    else FittingCount(tag, values, remaining, k + 1)
  }

  function Omission(tag: string, omitted: nat, digits: nat -> string): string {
    if omitted == 0 then "" else "\n<" + tag + "-truncated omitted=\"" + digits(omitted) + "\"/>"
  }

  method FittingPrefix(tag: string, shown: seq<string>, remaining: int) returns (kept: seq<string>)
    ensures kept == shown[..FittingCount(tag, shown, remaining, 0)]
  {
    kept := [];
    for i := 0 to |shown|
      invariant kept == shown[..i]
      invariant FittingCount(tag, shown, remaining, 0) == FittingCount(tag, shown, remaining, i)
    {
      var candidate := kept + [shown[i]];
      assert shown[..i + 1] == candidate;
      if |Tag(tag, candidate)| > remaining {
        return;
      }
      kept := candidate;
    }
  }

  /** A file list cut to the longest prefix that fits; the note about omissions is added only if it fits too. */
  function TagPart(tag: string, values: seq<string>, remaining: int, digits: nat -> string): string {
    var shown := First100(values);
    var n := FittingCount(tag, shown, remaining, 0);
    var plain := Tag(tag, shown[..n]);
    var noted := plain + Omission(tag, |shown| - n, digits);
    if remaining <= 0 || n == 0 then "" else if |noted| <= remaining then noted else plain
  }

  lemma TagPartFits(tag: string, values: seq<string>, remaining: int, digits: nat -> string)
    ensures var part := TagPart(tag, values, remaining, digits);
            part == "" || (|part| <= remaining && part[0] == '<')
  {
    hide First100, Omission;
  }

  lemma TagIsWritten(tag: string, kept: seq<string>, omitted: nat, digits: nat -> string)
    ensures Tag(tag, kept) == "<" + tag + ">\n" + Join(kept) + "\n</" + tag + ">"
    ensures omitted > 0 ==> Omission(tag, omitted, digits) == "\n<" + tag + "-truncated omitted=\"" + digits(omitted) + "\"/>"
  {
  }

  /** The first n of the values between the tags: one more would not fit, and the note about the others is there if it fits. */
  predicate ShowsFirst(part: string, tag: string, values: seq<string>, n: nat, most: nat, remaining: int, digits: nat -> string)
    requires n <= most <= |values|
  {
    var plain := Tag(tag, values[..n]);
    var noted := plain + Omission(tag, most - n, digits);
    && 0 < n && |plain| <= remaining && (n < most ==> |Tag(tag, values[..n + 1])| > remaining)
    && part == if n < most && |noted| <= remaining then noted else plain
  }

  lemma SameBeginnings(shown: seq<string>, values: seq<string>, n: nat)
    requires shown == First100(values) && n <= |shown|
    ensures |shown| == if |values| < 100 then |values| else 100
    ensures shown[..n] == values[..n] && (n < |shown| ==> shown[..n + 1] == values[..n + 1])
    ensures |values| > 0 ==> |shown| > 0
  {
  }

  lemma NoOmission(tag: string, plain: string, digits: nat -> string)
    ensures plain + Omission(tag, 0, digits) == plain
  {
  }

  /** Nothing, or the tag around as many leading values as fit, of the first hundred. */
  lemma TagPartShows(tag: string, values: seq<string>, remaining: int, digits: nat -> string)
    ensures var part, most := TagPart(tag, values, remaining, digits), if |values| < 100 then |values| else 100;
            || (part == "" && (remaining <= 0 || values == [] || |Tag(tag, values[..1])| > remaining))
            || exists n: nat :: n <= most && ShowsFirst(part, tag, values, n, most, remaining, digits)
  {
    var shown := First100(values);
    var n := FittingCount(tag, shown, remaining, 0);
    var most := if |values| < 100 then |values| else 100;
    SameBeginnings(shown, values, n);
    NoOmission(tag, Tag(tag, shown[..n]), digits);
    hide Tag, First100, FittingCount, Omission;
    if remaining > 0 && n > 0 {
      assert ShowsFirst(TagPart(tag, values, remaining, digits), tag, values, n, most, remaining, digits);
    }
  }

  method BoundedTag(tag: string, values: seq<string>, remaining: int, digits: nat -> string) returns (part: string)
    ensures part == TagPart(tag, values, remaining, digits)
    ensures part == "" || (|part| <= remaining && part[0] == '<')
  {
    if values == [] || remaining <= 0 {
      return "";
    }
    var shown := First100(values);
    var kept := FittingPrefix(tag, shown, remaining);
    if kept == [] {
      return "";
    }
    var plain := Tag(tag, kept);
    var noted := plain + Omission(tag, |shown| - |kept|, digits);
    return if |noted| <= remaining then noted else plain;
  }

  function FactsBlock(kept: seq<string>, omitted: seq<string>, dump: FactsDump): string {
    "<compaction-facts>\n" + dump(kept, omitted) + "\n</compaction-facts>"
  }

  /** Fields are kept greedily while the whole block fits; the rest are only named. */
  function SelectFacts(keys: seq<string>, kept: seq<string>, omitted: seq<string>, remaining: int, dump: FactsDump):
      (r: (seq<string>, seq<string>))
    ensures multiset(r.0) + multiset(r.1) == multiset(kept) + multiset(omitted) + multiset(keys)
    decreases |keys|
  {
    if keys == [] then (kept, omitted)
    else
      assert keys == [keys[0]] + keys[1..];
      if |FactsBlock(kept + [keys[0]], [], dump)| <= remaining
      then SelectFacts(keys[1..], kept + [keys[0]], omitted, remaining, dump)
      else SelectFacts(keys[1..], kept, omitted + [keys[0]], remaining, dump)
  }

  /** Taken one by one, a field is kept exactly when the block with it and the fields kept before still fits. */
  lemma {:induction false} FactsAreGreedy(keys: seq<string>, key: string, kept: seq<string>, omitted: seq<string>,
                                         remaining: int, dump: FactsDump)
    ensures SelectFacts([], kept, omitted, remaining, dump) == (kept, omitted)
    ensures var chosen := SelectFacts(keys, kept, omitted, remaining, dump);
            SelectFacts(keys + [key], kept, omitted, remaining, dump) ==
              if |"<compaction-facts>\n" + dump(chosen.0 + [key], []) + "\n</compaction-facts>"| <= remaining
              then (chosen.0 + [key], chosen.1) else (chosen.0, chosen.1 + [key])
    decreases |keys|
  {
    if keys == [] {
      assert (keys + [key])[0] == key && (keys + [key])[1..] == [];
    } else {
      assert (keys + [key])[0] == keys[0] && (keys + [key])[1..] == keys[1..] + [key];
      if |FactsBlock(kept + [keys[0]], [], dump)| <= remaining {
        FactsAreGreedy(keys[1..], key, kept + [keys[0]], omitted, remaining, dump);
      } else {
        FactsAreGreedy(keys[1..], key, kept, omitted + [keys[0]], remaining, dump);
      }
    }
  }

  function FactsPart(keys: seq<string>, remaining: int, dump: FactsDump): string {
    var chosen := SelectFacts(keys, [], [], remaining, dump);
    var block := FactsBlock(chosen.0, chosen.1, dump);
    if 0 < remaining && |block| <= remaining then block else ""
  }

  lemma FactsPartFits(keys: seq<string>, remaining: int, dump: FactsDump)
    ensures var part := FactsPart(keys, remaining, dump);
            part == "" || (|part| <= remaining && part[0] == '<')
  {
    hide SelectFacts;
  }

  method BoundedFacts(keys: seq<string>, remaining: int, dump: FactsDump) returns (part: string)
    ensures part == FactsPart(keys, remaining, dump)
    ensures var chosen := SelectFacts(keys, [], [], remaining, dump);
            var block := "<compaction-facts>\n" + dump(chosen.0, chosen.1) + "\n</compaction-facts>";
            part == if remaining > 0 && |block| <= remaining then block else ""
    ensures part == "" || (|part| <= remaining && part[0] == '<')
  {
    if remaining <= 0 {
      return "";
    }
    var kept: seq<string> := [];
    var omitted: seq<string> := [];
    assert keys[0..] == keys;
    for i := 0 to |keys|
      invariant SelectFacts(keys[i..], kept, omitted, remaining, dump) == SelectFacts(keys, [], [], remaining, dump)
    {
      assert keys[i..][0] == keys[i] && keys[i..][1..] == keys[i + 1..];
      if |FactsBlock(kept + [keys[i]], [], dump)| <= remaining {
        kept := kept + [keys[i]];
      } else {
        omitted := omitted + [keys[i]];
      }
    }
    var block := FactsBlock(kept, omitted, dump);
    return if |block| <= remaining then block else "";
  }

  lemma ExtraGrows(extra: string, part: string)
    requires IsExtra(extra) && part != "" && part[0] == '<'
    ensures IsExtra(extra + "\n\n" + part)
  {
    var longer := extra + "\n\n" + part;
    if extra == "" {
      assert longer == "\n\n" + part;
      assert longer[..2] == "\n\n" && longer[2] == part[0];
    } else {
      assert longer[..2] == extra[..2] && longer[2] == extra[2];
    }
  }

  function MaxChars(maxTokens: int): nat {
    Max(1024, maxTokens * 3)
  }

  function Attached(extra: string, part: string): string {
    if part == "" then extra else extra + "\n\n" + part
  }

  lemma AttachKeepsShape(extra: string, part: string, sections: string, maxChars: int)
    requires IsExtra(extra) && |sections + extra| <= maxChars
    requires part == "" || (|part| <= maxChars - |sections + extra| - 2 && part[0] == '<')
    ensures IsExtra(Attached(extra, part)) && |sections + Attached(extra, part)| <= maxChars
    ensures sections + Attached(extra, part) == Attached(sections + extra, part)
  {
    if part != "" {
      ExtraGrows(extra, part);
      assert sections + (extra + "\n\n" + part) == sections + extra + "\n\n" + part;
    }
  }

  function ReadPart(details: Details, text: string, maxChars: nat, digits: nat -> string): string {
    TagPart("read-files", details.readFiles, maxChars - |text| - 2, digits)
  }

  function ModifiedPart(details: Details, text: string, maxChars: nat, digits: nat -> string): string {
    TagPart("modified-files", details.modifiedFiles, maxChars - |text| - 2, digits)
  }

  function FactsAfter(details: Details, text: string, maxChars: nat, dump: FactsDump): string {
    FactsPart(details.factKeys, maxChars - |text| - 2, dump)
  }

  lemma PartsFit(details: Details, text: string, maxChars: nat, digits: nat -> string, dump: FactsDump)
    ensures FitsAfter(text, ReadPart(details, text, maxChars, digits), maxChars)
    ensures FitsAfter(text, ModifiedPart(details, text, maxChars, digits), maxChars)
    ensures FitsAfter(text, FactsAfter(details, text, maxChars, dump), maxChars)
  {
    TagPartFits("read-files", details.readFiles, maxChars - |text| - 2, digits);
    TagPartFits("modified-files", details.modifiedFiles, maxChars - |text| - 2, digits);
    FactsPartFits(details.factKeys, maxChars - |text| - 2, dump);
    hide TagPart, FactsPart;
  }

  /** The whole text: the sections, then each block if it still fits in what the earlier ones left. */
  function CheckpointText(summary: string, details: Details, maxChars: nat, digits: nat -> string, dump: FactsDump): string {
    var sections := BoundedSections(summary, maxChars / 2);
    var withRead := Attached(sections, ReadPart(details, sections, maxChars, digits));
    var withModified := Attached(withRead, ModifiedPart(details, withRead, maxChars, digits));
    Attached(withModified, FactsAfter(details, withModified, maxChars, dump))
  }

  predicate FitsAfter(text: string, part: string, maxChars: int) {
    part == "" || (|part| <= maxChars - |text| - 2 && part[0] == '<')
  }

  lemma ThreeAttached(sections: string, a: string, b: string, c: string, maxChars: int) returns (extra: string)
    requires |sections| <= maxChars && FitsAfter(sections, a, maxChars)
    requires FitsAfter(Attached(sections, a), b, maxChars) && FitsAfter(Attached(Attached(sections, a), b), c, maxChars)
    ensures Attached(Attached(Attached(sections, a), b), c) == sections + extra && IsExtra(extra) && |sections + extra| <= maxChars
  {
    extra := "";
    assert IsExtra(extra) && sections + extra == sections;
    hide Attached, IsExtra;
    AttachKeepsShape(extra, a, sections, maxChars);
    extra := Attached(extra, a);
    AttachKeepsShape(extra, b, sections, maxChars);
    extra := Attached(extra, b);
    AttachKeepsShape(extra, c, sections, maxChars);
    extra := Attached(extra, c);
  }

  /** Within the limit, and nothing after the sections but fact blocks. */
  lemma CheckpointTextFits(summary: string, details: Details, maxChars: nat, digits: nat -> string, dump: FactsDump)
    returns (extra: string)
    requires maxChars >= 1024
    ensures |CheckpointText(summary, details, maxChars, digits, dump)| <= maxChars && IsExtra(extra)
    ensures CheckpointText(summary, details, maxChars, digits, dump) == BoundedSections(summary, maxChars / 2) + extra
  {
    SectionsFit(summary, maxChars);
    hide ReadPart, ModifiedPart, FactsAfter, BoundedSections, Attached, IsExtra, FitsAfter;
    var sections := BoundedSections(summary, maxChars / 2);
    var read := ReadPart(details, sections, maxChars, digits);
    PartsFit(details, sections, maxChars, digits, dump);
    var withRead := Attached(sections, read);
    var modified := ModifiedPart(details, withRead, maxChars, digits);
    PartsFit(details, withRead, maxChars, digits, dump);
    var withModified := Attached(withRead, modified);
    PartsFit(details, withModified, maxChars, digits, dump);
    extra := ThreeAttached(sections, read, modified, FactsAfter(details, withModified, maxChars, dump), maxChars);
  }

  /** The checkpoint text: clipped sections, then whatever fact blocks still fit. */
  method CheckpointContent(summary: string, details: Details, maxTokens: int, digits: nat -> string, dump: FactsDump)
    returns (content: string)
    ensures content == CheckpointText(summary, details, MaxChars(maxTokens), digits, dump)
    ensures |content| <= Max(1024, maxTokens * 3)
    ensures var maxChars := Max(1024, maxTokens * 3);
            var sections := BoundedSections(summary, maxChars / 2);
            var read := TagPart("read-files", details.readFiles, maxChars - |sections| - 2, digits);
            var a := if read == "" then sections else sections + "\n\n" + read;
            var modified := TagPart("modified-files", details.modifiedFiles, maxChars - |a| - 2, digits);
            var b := if modified == "" then a else a + "\n\n" + modified;
            var facts := FactsPart(details.factKeys, maxChars - |b| - 2, dump);
            content == if facts == "" then b else b + "\n\n" + facts
  {
    hide TagPart, FactsPart, BoundedSections;
    var maxChars := Max(1024, maxTokens * 3);
    content := BoundedSections(summary, maxChars / 2);
    var part := BoundedTag("read-files", details.readFiles, maxChars - |content| - 2, digits);
    content := Attached(content, part);
    part := BoundedTag("modified-files", details.modifiedFiles, maxChars - |content| - 2, digits);
    content := Attached(content, part);
    part := BoundedFacts(details.factKeys, maxChars - |content| - 2, dump);
    content := Attached(content, part);
    ghost var extra := CheckpointTextFits(summary, details, maxChars, digits, dump);
  }

  lemma SectionsReadBack(summary: string, maxChars: nat, extra: string)
    requires Parse(summary).Ok? && IsExtra(extra)
    ensures var content := BoundedSections(summary, maxChars / 2) + extra;
            var texts := Meanings(Parse(summary).value);
            && Parse(content).Ok?
            && (Meanings(Parse(content).value) == texts <==> Within(texts, SectionBudget(maxChars / 2)))
  {
    HeadingsAreGood();
    ParsedIsReadable(summary);
    var n: nat := SectionBudget(maxChars / 2);
    var texts := Meanings(Parse(summary).value);
    ReparseIffUntruncated(HEADINGS, texts, n, extra);
    ParsePrinted(HEADINGS, Clips(texts, n), extra);
  }

  /** The checkpoint of a valid summary is valid, and keeps every section's meaning exactly when none was clipped. */
  lemma CheckpointReadsBack(summary: string, details: Details, maxTokens: int, digits: nat -> string, dump: FactsDump)
    requires Parse(summary).Ok?
    ensures var content := CheckpointText(summary, details, MaxChars(maxTokens), digits, dump);
            var texts := Meanings(Parse(summary).value);
            && Parse(content).Ok?
            && (Meanings(Parse(content).value) == texts <==> Within(texts, SectionBudget(MaxChars(maxTokens) / 2)))
  {
    var extra := CheckpointTextFits(summary, details, MaxChars(maxTokens), digits, dump);
    hide CheckpointText, BoundedSections, IsExtra, Parse, Meanings, Within;
    SectionsReadBack(summary, MaxChars(maxTokens), extra);
  }

  // ---- The mechanical fallback ----

  // The notice in short pieces, each small enough to be checked character by character.
  const NOTICE_1 := "This compaction did not "
  const NOTICE_2 := "regenerate a semantic "
  const NOTICE_3 := "summary; the preceding "
  const NOTICE_4 := "checkpoint remains "
  const NOTICE_5 := "authoritative through "
  const NOTICE_6 := "its coverage."
  const NOTICE: string := NOTICE_1 + NOTICE_2 + NOTICE_3 + NOTICE_4 + NOTICE_5 + NOTICE_6

  lemma SixPieces(a: string, b: string, c: string, d: string, e: string, f: string)
    requires '\n' !in a && '\n' !in b && '\n' !in c && '\n' !in d && '\n' !in e && '\n' !in f
    requires a != "" && f != ""
    ensures var s := a + b + c + d + e + f;
            s != "" && s[0] == a[0] && s[|s| - 1] == f[|f| - 1] && '\n' !in s
  {
  }

  const FALLBACK_BODIES: seq<string> := [
    "The verbatim original task remains in the pinned first user message.",
    "Not semantically re-evaluated; consult the pinned task and retained messages.",
    "",
    "Mechanical facts are retained below; completion is not inferred.",
    "Compaction fell back because the summary model was unavailable.",
    "Model-generated semantic summary unavailable for this checkpoint.",
    "Use the persisted compaction resource and retained raw turns as evidence.",
    "Resume from the retained raw context; re-evaluate task state with the model.",
    "This is a mechanical fallback, not an LLM semantic summary."]

  predicate GoodNotice(notice: string) {
    notice != "" && '\n' !in notice && Trimmed(notice) && notice[0] != '<'
  }

  lemma NoticeHasNoNewline()
    ensures '\n' !in NOTICE_1 && '\n' !in NOTICE_2 && '\n' !in NOTICE_3
  {
  }

  lemma NoticeEndHasNoNewline()
    ensures '\n' !in NOTICE_4 && '\n' !in NOTICE_5 && '\n' !in NOTICE_6
  {
  }

  lemma NoticeEnds()
    ensures NOTICE_1 != "" && NOTICE_1[0] == 'T' && NOTICE_6 != "" && NOTICE_6[|NOTICE_6| - 1] == '.'
  {
  }

  lemma NoticeIsGood()
    ensures GoodNotice(NOTICE)
  {
    NoticeHasNoNewline();
    NoticeEndHasNoNewline();
    NoticeEnds();
    SixPieces(NOTICE_1, NOTICE_2, NOTICE_3, NOTICE_4, NOTICE_5, NOTICE_6);
  }

  function WithNotice(critical: string, notice: string): string {
    Strip(if critical == "" then notice else critical + "\n" + notice)
  }

  function FallbackSections(previous: string, notice: string): (r: seq<string>)
    ensures |r| == |HEADINGS|
  {
    match Parse(previous)
    case Err(_) => FALLBACK_BODIES
    case Ok(bodies) =>
      SectionsHaveBodies(SplitLines(previous), HEADINGS);
      var texts := Meanings(bodies);
      texts[8 := WithNotice(texts[8], notice)]
  }

  /** The previous checkpoint with a notice added, or a fixed text when there is none to keep. */
  function MechanicalFallback(previous: string, notice: string): string {
    Print(HEADINGS, FallbackSections(previous, notice))
  }

  lemma WithNoticeIsReadable(critical: string, notice: string)
    requires Trimmed(critical) && AvoidsFacts(critical) && GoodNotice(notice)
    ensures var text := if critical == "" then notice else critical + "\n" + notice;
            WithNotice(critical, notice) == text && Trimmed(text) && AvoidsFacts(text)
  {
    TrimmedIsStripped(notice);
    PiecesOfOneLine(notice);
    if critical != "" {
      var text := critical + "\n" + notice;
      assert text[|text| - 1] == notice[|notice| - 1] && text[0] == critical[0];
      TrimmedIsStripped(text);
      PiecesAppend(critical, notice);
    }
  }

  lemma FallbackIsReadable(previous: string, notice: string)
    requires Parse(previous).Ok? && GoodNotice(notice)
    ensures Readable(FallbackSections(previous, notice), HEADINGS)
  {
    HeadingsAreGood();
    ParsedIsReadable(previous);
    var before, texts := Meanings(Parse(previous).value), FallbackSections(previous, notice);
    WithNoticeIsReadable(before[8], notice);
    forall k | 0 <= k < |texts| - 1 ensures AvoidsHeading(texts[k], HEADINGS[k + 1]) {
      assert AvoidsHeading(before[k], HEADINGS[k + 1]);
    }
  }

  /** Unclipped printing is read back exactly. */
  lemma PrintReadsBack(headings: seq<string>, texts: seq<string>)
    requires GoodHeadings(headings) && Readable(texts, headings)
    ensures var r := ParseLines(SplitLines(Print(headings, texts)), headings);
            r.Ok? && Meanings(r.value) == texts
  {
    var n := Longest(texts);
    ReparseIffUntruncated(headings, texts, n, "");
    UnclippedIsSame(texts, n);
    assert GoodHeading(headings[0]);
    ParsePrinted(headings, texts, "");
    assert Print(headings, texts) + "" == Print(headings, texts);
  }

  /** The fallback always validates, and keeps every earlier section word for word. */
  lemma FallbackReadsBack(previous: string, notice: string)
    requires GoodNotice(notice)
    ensures Parse(MechanicalFallback(previous, notice)).Ok?
    ensures Parse(previous).Ok? ==>
      Meanings(Parse(MechanicalFallback(previous, notice)).value) == FallbackSections(previous, notice)
    ensures Parse(previous).Err? ==> MechanicalFallback(previous, notice) == Print(HEADINGS, FALLBACK_BODIES)
  {
    HeadingsAreGood();
    var texts := FallbackSections(previous, notice);
    PrintedParses(HEADINGS, texts, "");
    assert Print(HEADINGS, texts) + "" == Print(HEADINGS, texts);
    if Parse(previous).Ok? {
      FallbackIsReadable(previous, notice);
      PrintReadsBack(HEADINGS, texts);
    }
  }

  /** The first eight sections say what they said, and the last one that and the notice. */
  lemma FallbackKeepsMeanings(previous: string, notice: string)
    requires GoodNotice(notice) && Parse(previous).Ok?
    ensures Parse(MechanicalFallback(previous, notice)).Ok?
    ensures var before := Meanings(Parse(previous).value);
            var after := Meanings(Parse(MechanicalFallback(previous, notice)).value);
            && |before| == |after| == 9
            && (forall k :: 0 <= k < 8 ==> after[k] == before[k])
            && after[8] == if before[8] == "" then notice else before[8] + "\n" + notice
  {
    FallbackReadsBack(previous, notice);
    ParsedIsReadable(previous);
    SectionsHaveBodies(SplitLines(previous), HEADINGS);
    WithNoticeIsReadable(Meanings(Parse(previous).value)[8], notice);
    hide Parse, Meanings, MechanicalFallback, AvoidsHeading;
  }

  function Longest(texts: seq<string>): (n: nat)
    ensures Within(texts, n)
  {
    if texts == [] then 0
    else
      var rest: nat := Longest(texts[1..]);
      var n: nat := Max(|texts[0]|, rest);
      WithinCons(texts, n);
      n
  }

  lemma UnclippedIsSame(texts: seq<string>, n: nat)
    requires Within(texts, n) && forall k :: 0 <= k < |texts| ==> Trimmed(texts[k])
    ensures Clips(texts, n) == texts
  {
    forall k | 0 <= k < |texts| ensures Clips(texts, n)[k] == texts[k] {
      ClipFits(texts[k], n);
    }
  }
}
