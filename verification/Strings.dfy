/** Lines and outer whitespace, as the summary parser sees them. Only a newline ends a line. */
module Strings {
  function Join(lines: seq<string>): string {
    if lines == [] then ""
    else if |lines| == 1 then lines[0]
    else lines[0] + "\n" + Join(lines[1..])
  }

  function Prepend(c: char, pieces: seq<string>): (r: seq<string>)
    requires pieces != []
    ensures r != []
  {
    if c == '\n' then [""] + pieces else [[c] + pieces[0]] + pieces[1..]
  }

  /** The pieces between newlines; there is always at least one. */
  function Pieces(s: string): (r: seq<string>)
    ensures r != []
  {
    if s == "" then [""] else Prepend(s[0], Pieces(s[1..]))
  }

  /** Pieces without the empty one after a final newline. */
  function SplitLines(s: string): seq<string> {
    var pieces := Pieces(s);
    if pieces[|pieces| - 1] == "" then pieces[..|pieces| - 1] else pieces
  }

  predicate IsSpace(c: char) {
    var n := c as int;
    || 9 <= n <= 13 || 28 <= n <= 32 || n == 133 || n == 160 || n == 5760 || 8192 <= n <= 8202
    || n == 8232 || n == 8233 || n == 8239 || n == 8287 || n == 12288
  }

  function LStrip(s: string): string {
    if s != "" && IsSpace(s[0]) then LStrip(s[1..]) else s
  }

  function RStrip(s: string): (r: string)
    ensures |r| <= |s|
  {
    if s != "" && IsSpace(s[|s| - 1]) then RStrip(s[..|s| - 1]) else s
  }

  function Strip(s: string): string {
    RStrip(LStrip(s))
  }

  // ---- Pieces ----

  lemma {:induction false} JoinPieces(s: string)
    ensures Join(Pieces(s)) == s
  {
    if s != "" {
      var rest := Pieces(s[1..]);
      JoinPieces(s[1..]);
      if s[0] == '\n' {
        assert ([""] + rest)[1..] == rest;
        assert s == "" + "\n" + s[1..];
      } else {
        var all := Pieces(s);
        assert all[0] == [s[0]] + rest[0] && all[1..] == rest[1..];
        if |rest| > 1 {
          assert Join(all) == ([s[0]] + rest[0]) + "\n" + Join(rest[1..]);
          assert Join(all) == [s[0]] + (rest[0] + "\n" + Join(rest[1..]));
        }
        assert s == [s[0]] + s[1..];
      }
    }
  }

  lemma PrependAppend(c: char, p: seq<string>, q: seq<string>)
    requires p != []
    ensures Prepend(c, p) + q == Prepend(c, p + q)
  {
  }

  lemma {:induction false} PiecesAppend(a: string, b: string)
    ensures Pieces(a + "\n" + b) == Pieces(a) + Pieces(b)
  {
    var s := a + "\n" + b;
    if a == "" {
      assert s[0] == '\n' && s[1..] == b;
    } else {
      assert s[0] == a[0] && s[1..] == a[1..] + "\n" + b;
      PiecesAppend(a[1..], b);
      PrependAppend(a[0], Pieces(a[1..]), Pieces(b));
    }
  }

  lemma LastOfAppend(p: seq<string>, q: seq<string>)
    requires q != []
    ensures (p + q)[|p + q| - 1] == q[|q| - 1]
    ensures (p + q)[..|p + q| - 1] == p + q[..|q| - 1]
  {
  }

  lemma SplitLinesAppend(a: string, b: string)
    ensures SplitLines(a + "\n" + b) == Pieces(a) + SplitLines(b)
  {
    PiecesAppend(a, b);
    LastOfAppend(Pieces(a), Pieces(b));
  }

  lemma {:induction false} PiecesOfOneLine(s: string)
    requires '\n' !in s
    ensures Pieces(s) == [s]
  {
    if s != "" {
      PiecesOfOneLine(s[1..]);
      assert s[0] != '\n' && [s[0]] + s[1..] == s;
    }
  }

  lemma {:induction false} PiecesHaveNoNewline(s: string)
    ensures forall line :: line in Pieces(s) ==> '\n' !in line
  {
    if s != "" {
      PiecesHaveNoNewline(s[1..]);
    }
  }

  lemma {:induction false} PiecesJoin(lines: seq<string>)
    requires lines != [] && forall line :: line in lines ==> '\n' !in line
    ensures Pieces(Join(lines)) == lines
  {
    PiecesOfOneLine(lines[0]);
    if |lines| == 1 {
    } else {
      PiecesJoin(lines[1..]);
      PiecesAppend(lines[0], Join(lines[1..]));
      assert lines == [lines[0]] + lines[1..];
    }
  }

  lemma {:induction false} JoinPrefix(lines: seq<string>, n: nat)
    requires n <= |lines|
    ensures |Join(lines[..n])| <= |Join(lines)|
  {
    if n > 0 && |lines| > 1 {
      JoinPrefix(lines[1..], n - 1);
      assert lines[..n][1..] == lines[1..][..n - 1];
    }
  }

  lemma JoinSnoc(lines: seq<string>, last: string)
    requires lines != []
    ensures Join(lines + [last]) == Join(lines) + "\n" + last
  {
    if |lines| == 1 {
      assert (lines + [last])[1..] == [last];
    } else {
      JoinSnoc(lines[1..], last);
      assert (lines + [last])[1..] == lines[1..] + [last];
      assert lines[0] + "\n" + (Join(lines[1..]) + "\n" + last) == lines[0] + "\n" + Join(lines[1..]) + "\n" + last;
    }
  }

  // ---- Stripping ----

  lemma {:induction false} LStripSnoc(s: string, c: char)
    requires IsSpace(c)
    ensures LStrip(s + [c]) == if LStrip(s) == "" then "" else LStrip(s) + [c]
  {
    if s == "" {
      assert ("" + [c])[1..] == "";
    } else if IsSpace(s[0]) {
      LStripSnoc(s[1..], c);
      assert (s + [c])[1..] == s[1..] + [c];
    }
  }

  lemma StripSnoc(s: string, c: char)
    requires IsSpace(c)
    ensures Strip(s + [c]) == Strip(s)
  {
    LStripSnoc(s, c);
    var t := LStrip(s);
    if t != "" {
      assert (t + [c])[..|t|] == t;
    }
  }

  lemma StripCons(c: char, s: string)
    requires IsSpace(c)
    ensures Strip([c] + s) == Strip(s)
  {
    assert ([c] + s)[1..] == s;
  }

  predicate Trimmed(s: string) {
    s != "" ==> !IsSpace(s[0]) && !IsSpace(s[|s| - 1])
  }

  lemma {:induction false} RStripIsPrefix(s: string)
    ensures RStrip(s) <= s
    ensures RStrip(s) != "" ==> !IsSpace(RStrip(s)[|RStrip(s)| - 1])
  {
    if s != "" && IsSpace(s[|s| - 1]) {
      RStripIsPrefix(s[..|s| - 1]);
    }
  }

  lemma {:induction false} LStripHead(s: string)
    ensures LStrip(s) != "" ==> !IsSpace(LStrip(s)[0])
    ensures |LStrip(s)| <= |s|
  {
    if s != "" && IsSpace(s[0]) {
      LStripHead(s[1..]);
    }
  }

  lemma StripIsTrimmed(s: string)
    ensures Trimmed(Strip(s)) && |Strip(s)| <= |s|
  {
    LStripHead(s);
    RStripIsPrefix(LStrip(s));
  }

  lemma TrimmedIsStripped(s: string)
    requires Trimmed(s)
    ensures Strip(s) == s && RStrip(s) == s
  {
  }

  /** A property of stripped lines survives stripping the whole text. */
  predicate AllLines(s: string, ok: string -> bool) {
    forall line :: line in Pieces(s) ==> ok(Strip(line))
  }

  lemma {:induction false} AllLinesLStrip(s: string, ok: string -> bool)
    requires AllLines(s, ok)
    ensures AllLines(LStrip(s), ok)
  {
    if s != "" && IsSpace(s[0]) {
      var rest := Pieces(s[1..]);
      forall line | line in rest ensures ok(Strip(line)) {
        if s[0] == '\n' {
          assert line in Pieces(s);
        } else if line == rest[0] {
          assert Pieces(s)[0] == [s[0]] + line;
          StripCons(s[0], line);
        } else {
          var i :| 0 <= i < |rest| && rest[i] == line;
          assert Pieces(s)[i] == line;
        }
      }
      AllLinesLStrip(s[1..], ok);
    }
  }

  function Postpend(pieces: seq<string>, c: char): (r: seq<string>)
    requires pieces != []
    ensures r != []
  {
    var last := |pieces| - 1;
    if c == '\n' then pieces + [""] else pieces[..last] + [pieces[last] + [c]]
  }

  lemma PrependPostpend(a: char, pieces: seq<string>, c: char)
    requires pieces != []
    ensures Postpend(Prepend(a, pieces), c) == Prepend(a, Postpend(pieces, c))
  {
    var l, r := Postpend(Prepend(a, pieces), c), Prepend(a, Postpend(pieces, c));
    assert |l| == |r|;
    if a != '\n' && c != '\n' && |pieces| == 1 {
      assert [a] + (pieces[0] + [c]) == ([a] + pieces[0]) + [c];
    }
    forall i | 0 <= i < |l| ensures l[i] == r[i] {
    }
  }

  lemma {:induction false} PiecesSnoc(s: string, c: char)
    ensures Pieces(s + [c]) == Postpend(Pieces(s), c)
  {
    var t := s + [c];
    if s == "" {
      assert t[1..] == "";
      assert [c] + "" == "" + [c];
    } else {
      PiecesSnoc(s[1..], c);
      assert t[0] == s[0] && t[1..] == s[1..] + [c];
      PrependPostpend(s[0], Pieces(s[1..]), c);
    }
  }

  lemma AllLinesInit(t: string, c: char, ok: string -> bool)
    requires IsSpace(c) && AllLines(t + [c], ok)
    ensures AllLines(t, ok)
  {
    PiecesSnoc(t, c);
    var p, q := Pieces(t), Pieces(t + [c]);
    forall i | 0 <= i < |p| ensures ok(Strip(p[i])) {
      assert q[i] in q;
      if c != '\n' && i == |p| - 1 {
        assert q[i] == p[i] + [c];
        StripSnoc(p[i], c);
      } else {
        assert q[i] == p[i];
      }
    }
  }

  lemma {:induction false} AllLinesRStrip(s: string, ok: string -> bool)
    requires AllLines(s, ok)
    ensures AllLines(RStrip(s), ok)
  {
    if s != "" && IsSpace(s[|s| - 1]) {
      var t := s[..|s| - 1];
      assert s == t + [s[|s| - 1]];
      AllLinesInit(t, s[|s| - 1], ok);
      AllLinesRStrip(t, ok);
    }
  }

  lemma AllLinesStrip(s: string, ok: string -> bool)
    requires AllLines(s, ok)
    ensures AllLines(Strip(s), ok)
  {
    AllLinesLStrip(s, ok);
    AllLinesRStrip(LStrip(s), ok);
  }
}
