/** The excerpt of replaced turns shown to the summarizer: a spread sample of old turns, all of the newest, within a limit. */
module Excerpt {
  import opened Wrappers
  import opened Strings

  const RECENT_TURNS: nat := 12
  const MARK: string := "\n[...excerpt omitted...]\n"
  const OMITTED: string := "[omitted]"
  const RESERVE: nat := 160

  // The notice in short pieces, and the line added to it when old turns were sampled.
  const NOTICE: string := "EXCERPTS: omitted text " + "is unknown, not absent. " + "Later evidence supersedes" + " earlier state.\n"
  const SAMPLED_1: string := "Older turns sampled: "
  const SAMPLED_2: string := "; complete raw turns " + "remain in the compaction" + " resource.\n"

  const DIGIT: string := "0123456789"

  function Digits(n: nat): string {
    if n < 10 then [DIGIT[n]] else Digits(n / 10) + [DIGIT[n % 10]]
  }

  function SampledNotice(count: nat, total: nat): string {
    SAMPLED_1 + Digits(count) + "/" + Digits(total) + SAMPLED_2
  }

  function Pow10(k: nat): (p: nat)
    ensures p > 0
  {
    if k == 0 then 1 else 10 * Pow10(k - 1)
  }

  lemma {:induction false} FewDigits(n: nat, k: nat)
    requires k > 0 && n < Pow10(k)
    ensures |Digits(n)| <= k
  {
    if n >= 10 {
      assert Pow10(0) == 1 && Pow10(1) == 10;
      FewDigits(n / 10, k - 1);
    }
  }

  lemma {:induction false} PowerDigits(k: nat)
    ensures |Digits(Pow10(k))| == k + 1
  {
    if k > 0 {
      PowerDigits(k - 1);
      assert Pow10(k) / 10 == Pow10(k - 1);
    }
  }

  /** The text itself, or its two ends around a mark, or nothing but a mark. */
  function Bounded(value: string, budget: int): string {
    var half := if budget < 28 then 0 else (budget - 28) / 2;
    if |value| <= budget then value
    else if half == 0 then OMITTED
    else value[..half] + MARK + value[|value| - half..]
  }

  /** Within the budget when it has room for a mark; a text that fits is kept as it is. */
  lemma BoundedFits(value: string, budget: int)
    ensures |value| <= budget ==> Bounded(value, budget) == value
    ensures |Bounded(value, budget)| <= if budget < 9 then 9 else budget
    ensures |value| > budget >= 30 ==>
      var half := (budget - 28) / 2;
      && half < |value| && |Bounded(value, budget)| == 2 * half + |MARK|
      && Bounded(value, budget)[..half] == value[..half]
      && Bounded(value, budget)[half + |MARK|..] == value[|value| - half..]
  {
    assert |OMITTED| == 9 && |MARK| == 25;
  }

  function BoundedAll(turns: seq<string>, budget: int): seq<string> {
    seq(|turns|, i requires 0 <= i < |turns| => Bounded(turns[i], budget))
  }

  // ---- Sampling ----

  /** The i-th of count places spread over total ones. */
  function Place(i: nat, count: nat, total: nat): nat
    requires count > 0
  {
    i * total / count
  }

  lemma PlacesSpread(i: nat, count: nat, total: nat)
    requires 0 < count < total && i < count
    ensures Place(0, count, total) == 0
    ensures Place(i, count, total) < total
    ensures Place(i, count, total) < Place(i + 1, count, total) <= Place(i, count, total) + total / count + 1
  {
    var a := i * total;
    assert a < count * total by {
      assert (count - i) * total > 0;
    }
    DivideBelow(a, total, count);
    assert (i + 1) * total == a + total;
    DivideSum(a, total, count);
  }

  lemma TimesMonotone(c: nat, x: int, y: int)
    requires x <= y
    ensures c * x <= c * y
  {
    assert c * y == c * x + c * (y - x);
  }

  lemma QuotientBelow(q: nat, n: int, c: nat)
    requires c * q < c * n
    ensures q < n
  {
    if n <= q {
      TimesMonotone(c, n, q);
    }
  }

  lemma DivideBelow(a: nat, n: nat, c: nat)
    requires c > 0 && a < c * n
    ensures a / c < n
  {
    assert c * (a / c) <= a;
    QuotientBelow(a / c, n, c);
  }

  lemma DivideAtLeast(n: nat, k: nat, size: nat)
    requires 0 < k && k * size <= n
    ensures n / k >= size
  {
    var q := n / k;
    assert n < k * q + k == k * (q + 1);
    QuotientBelow(size, q + 1, k);
  }

  lemma QuotientsAdd(a: nat, b: nat, c: nat, qa: nat, qb: nat, q: nat)
    requires 0 < c <= b
    requires c * qa <= a < c * qa + c && c * qb <= b < c * qb + c && c * q <= a + b < c * q + c
    ensures qa < q <= qa + qb + 1
  {
    assert c * (q + 1) == c * q + c && c * (qa + 1) == c * qa + c;
    QuotientBelow(qa + 1, q + 1, c);
    assert c * (qa + qb + 2) == c * qa + c * qb + c + c;
    QuotientBelow(q, qa + qb + 2, c);
  }

  lemma DivideSum(a: nat, b: nat, c: nat)
    requires 0 < c <= b
    ensures a / c < (a + b) / c <= a / c + b / c + 1
  {
    QuotientsAdd(a, b, c, a / c, b / c, (a + b) / c);
  }

  function Sampled(turns: seq<string>, count: nat): seq<string>
    requires 0 < count < |turns|
  {
    seq(count, i requires 0 <= i < count => PlacesSpread(i, count, |turns|); turns[Place(i, count, |turns|)])
  }

  // ---- The excerpt ----

  datatype Budget = Budget(older: nat, recent: nat)

  /** Thirty-five percent for the old turns when there are any. */
  function BudgetFor(limit: int, hasOlder: bool): (b: Budget)
    ensures limit >= |NOTICE| + RESERVE ==> b.older + b.recent == limit - |NOTICE| - RESERVE
  {
    var whole := if limit < |NOTICE| + RESERVE then 0 else limit - |NOTICE| - RESERVE;
    var recent := if hasOlder then whole * 65 / 100 else whole;
    Budget(whole - recent, recent)
  }

  function OlderCount(b: Budget): (count: nat)
    ensures count > 0
  {
    if b.older / 120 < 1 then 1 else b.older / 120
  }

  function OlderTurns(older: seq<string>, b: Budget): seq<string> {
    if |older| > OlderCount(b) then Sampled(older, OlderCount(b)) else older
  }

  function OlderParts(older: seq<string>, b: Budget): seq<string> {
    var kept := OlderTurns(older, b);
    if kept == [] then [] else BoundedAll(kept, Max(b.older / |kept| - 1, 1))
  }

  function RecentParts(recent: seq<string>, b: Budget): seq<string> {
    if recent == [] then [] else BoundedAll(recent, b.recent / |recent|)
  }

  function Notices(total: nat, b: Budget): string {
    if total > OlderCount(b) then NOTICE + SampledNotice(OlderCount(b), total) else NOTICE
  }

  lemma NoticesSize(total: nat, b: Budget)
    ensures |Notices(total, b)| ==
      if total > OlderCount(b) then 166 + |Digits(OlderCount(b))| + |Digits(total)| else 88
  {
    assert |NOTICE| == 88 && |SAMPLED_1| == 21 && |SAMPLED_2| == 56;
  }

  lemma NoticesFit(total: nat, b: Budget)
    requires total < Pow10(35)
    ensures |Notices(total, b)| <= if total == 0 then 88 else if b.older < 240 then 202 else 236
  {
    NoticesSize(total, b);
    hide Pow10, Notices;
    if total > OlderCount(b) {
      FewDigits(total, 35);
      FewDigits(OlderCount(b), 35);
    }
  }

  function RenderBrowserTranscript(turns: seq<string>, limit: int): string {
    if turns == [] then ""
    else
      var split := if |turns| < RECENT_TURNS then 0 else |turns| - RECENT_TURNS;
      var older, recent := turns[..split], turns[split..];
      var b := BudgetFor(limit, older != []);
      Notices(|older|, b) + Join(OlderParts(older, b) + RecentParts(recent, b))
  }

  // ---- Sizes ----

  function Size(parts: seq<string>): nat {
    if parts == [] then 0 else |parts[0]| + Size(parts[1..])
  }

  lemma {:induction false} SizeAppend(a: seq<string>, b: seq<string>)
    ensures Size(a + b) == Size(a) + Size(b)
  {
    if a == [] {
      assert a + b == b;
    } else {
      SizeAppend(a[1..], b);
      assert (a + b)[0] == a[0] && (a + b)[1..] == a[1..] + b;
    }
  }

  lemma {:induction false} JoinSize(parts: seq<string>)
    requires parts != []
    ensures |Join(parts)| == Size(parts) + |parts| - 1
  {
    if |parts| > 1 {
      JoinSize(parts[1..]);
    }
  }

  lemma {:induction false} BoundedSize(turns: seq<string>, budget: int)
    ensures Size(BoundedAll(turns, budget)) <= |turns| * Max(budget, 9)
  {
    if turns != [] {
      BoundedFits(turns[0], budget);
      BoundedSize(turns[1..], budget);
      assert BoundedAll(turns, budget)[1..] == BoundedAll(turns[1..], budget);
      assert |turns| * Max(budget, 9) == Max(budget, 9) + (|turns| - 1) * Max(budget, 9);
    }
  }

  lemma {:induction false} MarksSize(parts: seq<string>)
    requires forall i :: 0 <= i < |parts| ==> |parts[i]| == |OMITTED|
    ensures Size(parts) == 9 * |parts|
  {
    if parts != [] {
      MarksSize(parts[1..]);
    }
  }

  lemma DivideTimes(n: nat, c: nat)
    requires c > 0
    ensures c * (n / c) <= n
  {
  }

  lemma OlderSize(older: seq<string>, b: Budget)
    requires b.older >= 10
    ensures Size(OlderParts(older, b)) + |OlderParts(older, b)| <= b.older
  {
    var kept := OlderTurns(older, b);
    if kept != [] {
      var n := |kept|;
      assert n <= OlderCount(b);
      assert n * 10 <= b.older by {
        if b.older >= 120 {
          DivideTimes(b.older, 120);
        }
      }
      DivideAtLeast(b.older, n, 10);
      BoundedSize(kept, b.older / n - 1);
      DivideTimes(b.older, n);
      assert n * (b.older / n - 1) == n * (b.older / n) - n;
    }
  }

  lemma RecentSize(recent: seq<string>, b: Budget)
    requires 0 < |recent| <= RECENT_TURNS
    ensures |RecentParts(recent, b)| == |recent|
    ensures Size(RecentParts(recent, b)) <= Max(b.recent, 9 * RECENT_TURNS)
  {
    BoundedSize(recent, b.recent / |recent|);
    if b.recent / |recent| >= 9 {
      DivideTimes(b.recent, |recent|);
    } else {
      TimesMonotone(9, |recent|, RECENT_TURNS);
    }
  }

  /** The shares of old and new turns leave room for both notice lines from a limit of 361 on. */
  lemma BudgetIsEnough(limit: int, hasOlder: bool)
    requires limit >= 361
    ensures var b := BudgetFor(limit, hasOlder);
            && b.older + Max(b.recent, 9 * RECENT_TURNS) + (if hasOlder then 213 else 0) <= limit
            && (hasOlder ==> b.older >= 10) && (b.older >= 240 ==> b.older + Max(b.recent, 9 * RECENT_TURNS) + 248 <= limit)
  {
    assert |NOTICE| == 88;
  }

  /** The excerpt is its notice lines and its parts, one separator between any two. */
  lemma ExcerptSize(older: seq<string>, recent: seq<string>, limit: int)
    requires recent != [] && |recent| <= RECENT_TURNS && (older != [] ==> |recent| == RECENT_TURNS)
    ensures var b := BudgetFor(limit, older != []);
            var x, y := OlderParts(older, b), RecentParts(recent, b);
            |RenderBrowserTranscript(older + recent, limit)| ==
              |Notices(|older|, b)| + Size(x) + |x| + Size(y) + |y| - 1
  {
    var turns, b := older + recent, BudgetFor(limit, older != []);
    var x, y := OlderParts(older, b), RecentParts(recent, b);
    assert turns[..|older|] == older && turns[|older|..] == recent;
    hide OlderParts, BudgetFor, Notices;
    SizeAppend(x, y);
    JoinSize(x + y);
  }

  /** What the two notice lines leave: sixty-five percent for the newest turns, the rest for the old ones, if there are any. */
  lemma BudgetReads(limit: int, hasOlder: bool)
    ensures var b, whole := BudgetFor(limit, hasOlder), Max(0, limit - 248);
            && b.recent == (if hasOlder then whole * 65 / 100 else whole) && b.older == whole - b.recent
            && OlderCount(b) == Max(1, b.older / 120)
  {
    assert |NOTICE| == 88;
  }

  /** The old turns kept: all of them, or a spread sample, each cut to an equal share. */
  lemma OlderPartsRead(older: seq<string>, b: Budget, k: nat)
    requires older != []
    ensures var n := if |older| > OlderCount(b) then OlderCount(b) else |older|;
            && |OlderParts(older, b)| == n
            && (k < n ==>
                  var place := if |older| > OlderCount(b) then Place(k, n, |older|) else k;
                  place < |older| && OlderParts(older, b)[k] == Bounded(older[place], Max(b.older / n - 1, 1)))
  {
    if |older| > OlderCount(b) && k < OlderCount(b) {
      PlacesSpread(k, OlderCount(b), |older|);
    }
    hide Place, Bounded;
  }

  /** Notice lines, then the parts of the old turns, then every one of the newest, in order. */
  lemma RenderReads(older: seq<string>, recent: seq<string>, limit: int)
    requires recent != [] && |recent| <= 12 && (older != [] ==> |recent| == 12)
    ensures var b := BudgetFor(limit, older != []);
            && |RecentParts(recent, b)| == |recent|
            && (forall k :: 0 <= k < |recent| ==> RecentParts(recent, b)[k] == Bounded(recent[k], b.recent / |recent|))
            && (older == [] ==> OlderParts(older, b) == [])
            && RenderBrowserTranscript(older + recent, limit) ==
                 (if |older| > OlderCount(b) then NOTICE + SampledNotice(OlderCount(b), |older|) else NOTICE)
                 + Join(OlderParts(older, b) + RecentParts(recent, b))
  {
    var turns := older + recent;
    assert turns[..|older|] == older && turns[|older|..] == recent;
    hide Bounded, Join, BudgetFor, OlderCount, SampledNotice;
  }

  /** From a limit of 361 characters on, the excerpt of any list of turns that fits a machine stays within its limit. */
  lemma ExcerptFits(turns: seq<string>, limit: int)
    requires limit >= 361 && |turns| < Pow10(35)
    ensures |RenderBrowserTranscript(turns, limit)| <= limit
  {
    if turns != [] {
      var split := if |turns| < RECENT_TURNS then 0 else |turns| - RECENT_TURNS;
      var older, recent := turns[..split], turns[split..];
      var b := BudgetFor(limit, older != []);
      assert older + recent == turns;
      ExcerptSize(older, recent, limit);
      NoticesFit(|older|, b);
      RecentSize(recent, b);
      BudgetIsEnough(limit, older != []);
      if older != [] {
        OlderSize(older, b);
      }
      hide RenderBrowserTranscript, Join, Size, Notices, OlderParts, RecentParts, OlderTurns, BudgetFor, Pow10;
    }
  }

  // What a limit below 361 leaves no room for: two notice lines, one sampled old turn and twelve marks.
  function CrowdedTurn(limit: int): (turn: string)
    ensures |turn| == Max(BudgetFor(limit, true).older - 1, 9)
  {
    seq(Max(BudgetFor(limit, true).older - 1, 9), i => 'x')
  }

  function Repeated(turn: string, n: nat): seq<string> {
    seq(n, i => turn)
  }

  lemma CrowdedOlder(limit: int, n: nat)
    requires limit < 361 && n > 1
    ensures var b := BudgetFor(limit, true);
            && OlderCount(b) == 1 && |OlderParts(Repeated(CrowdedTurn(limit), n), b)| == 1
            && Size(OlderParts(Repeated(CrowdedTurn(limit), n), b)) == Max(b.older - 1, 9)
  {
    var b, turn := BudgetFor(limit, true), CrowdedTurn(limit);
    assert |NOTICE| == 88 && |OMITTED| == 9;
    assert b.older <= 40;
    var parts := OlderParts(Repeated(turn, n), b);
    assert |parts| == 1 && parts[0] == Bounded(turn, Max(b.older - 1, 1));
    assert |parts[0]| == Max(b.older - 1, 9) && Size(parts[1..]) == 0;
  }

  lemma CrowdedRecent(limit: int)
    requires limit < 361
    ensures var parts := RecentParts(Repeated(CrowdedTurn(limit), RECENT_TURNS), BudgetFor(limit, true));
            |parts| == RECENT_TURNS && Size(parts) == 9 * RECENT_TURNS
  {
    var b, turn := BudgetFor(limit, true), CrowdedTurn(limit);
    assert |NOTICE| == 88 && |OMITTED| == 9;
    assert b.recent / RECENT_TURNS <= 6;
    MarksSize(RecentParts(Repeated(turn, RECENT_TURNS), b));
  }

  lemma NoRoomLeft(limit: int)
    requires limit < 361
    ensures 321 + Max(BudgetFor(limit, true).older, 10) > limit
  {
    assert |NOTICE| == 88;
  }

  lemma RepeatedAppend(turn: string, m: nat, n: nat)
    ensures Repeated(turn, m) + Repeated(turn, n) == Repeated(turn, m + n)
  {
  }

  lemma CrowdedTurnsExceed(limit: int, n: nat)
    requires limit < 361 && n > 1 && |Digits(n)| >= 35
    ensures |RenderBrowserTranscript(Repeated(CrowdedTurn(limit), n + RECENT_TURNS), limit)| > limit
  {
    var turn, b := CrowdedTurn(limit), BudgetFor(limit, true);
    RepeatedAppend(turn, n, RECENT_TURNS);
    ExcerptSize(Repeated(turn, n), Repeated(turn, RECENT_TURNS), limit);
    CrowdedOlder(limit, n);
    CrowdedRecent(limit);
    NoticesSize(n, b);
    NoRoomLeft(limit);
    hide RenderBrowserTranscript, Size, Notices, OlderParts, RecentParts, CrowdedTurn, Digits, BudgetFor, OlderCount;
  }

  /** The limits that every list of turns fitting a machine keeps are those from 361 on. */
  lemma LimitIsKeptIff(limit: int)
    ensures (forall turns: seq<string> :: |turns| < Pow10(35) ==> |RenderBrowserTranscript(turns, limit)| <= limit)
            <==> limit >= 361
  {
    hide RenderBrowserTranscript;
    if limit >= 361 {
      forall turns: seq<string> | |turns| < Pow10(35) ensures |RenderBrowserTranscript(turns, limit)| <= limit {
        ExcerptFits(turns, limit);
      }
    } else {
      var n := Pow10(34);
      assert n > 1 && n + RECENT_TURNS < Pow10(35);
      PowerDigits(34);
      CrowdedTurnsExceed(limit, n);
      hide Pow10, Digits, CrowdedTurn;
      assert |Repeated(CrowdedTurn(limit), n + RECENT_TURNS)| < Pow10(35);
    }
  }

  /** Below the size of its notice no limit is kept. */
  lemma TinyLimitIsExceeded(turns: seq<string>, limit: int)
    requires turns != [] && limit < |NOTICE|
    ensures |RenderBrowserTranscript(turns, limit)| > limit
  {
  }

  /** Every one of the newest turns keeps its place, word for word when it fits its share. */
  lemma NewestTurnsAreKept(recent: seq<string>, b: Budget, i: nat)
    requires i < |recent|
    ensures |RecentParts(recent, b)| == |recent|
    ensures |recent[i]| <= b.recent / |recent| ==> RecentParts(recent, b)[i] == recent[i]
  {
    BoundedFits(recent[i], b.recent / |recent|);
  }
}
