/** Optional values, results (for raised exceptions), and the few helpers several modules share. */
module Wrappers {
  datatype Option<+T> = None | Some(value: T)

  datatype Result<+T, +E> = Ok(value: T) | Err(error: E)

  function Max(a: int, b: int): int {
    if a < b then b else a
  }

  /** A missing text and an empty one are the same. */
  function NonEmpty(text: string): Option<string> {
    if text == "" then None else Some(text)
  }

  /** The last n entries, or all of them when there are fewer. */
  function LastN<T>(entries: seq<T>, n: nat): seq<T> {
    if |entries| <= n then entries else entries[|entries| - n..]
  }

  lemma LastNAppend<T>(entries: seq<T>, entry: T, n: nat)
    ensures LastN(LastN(entries, n) + [entry], n) == LastN(entries + [entry], n)
  {
    var longer := entries + [entry];
    if |entries| > n {
      assert longer[|longer| - n..] == (LastN(entries, n) + [entry])[1..];
    }
  }

  /** The items that satisfy a test, in their order. */
  function Filter<T>(items: seq<T>, keep: T -> bool): seq<T> {
    if items == [] then []
    else if keep(items[0]) then [items[0]] + Filter(items[1..], keep)
    else Filter(items[1..], keep)
  }

  lemma {:induction false} FilterAppend<T>(a: seq<T>, b: seq<T>, keep: T -> bool)
    ensures Filter(a + b, keep) == Filter(a, keep) + Filter(b, keep)
  {
    if a == [] {
      assert a + b == b;
    } else {
      FilterAppend(a[1..], b, keep);
      assert (a + b)[0] == a[0] && (a + b)[1..] == a[1..] + b;
    }
  }

  /** The last item is kept or not, whatever came before it. */
  lemma FilterLast<T>(items: seq<T>, last: T, keep: T -> bool)
    ensures Filter(items + [last], keep) == if keep(last) then Filter(items, keep) + [last] else Filter(items, keep)
  {
    FilterAppend(items, [last], keep);
    assert [last][1..] == [];
  }

  lemma {:induction false} FilterAll<T>(items: seq<T>, keep: T -> bool)
    ensures (forall i :: 0 <= i < |items| ==> keep(items[i])) ==> Filter(items, keep) == items
    ensures (forall i :: 0 <= i < |items| ==> !keep(items[i])) <==> Filter(items, keep) == []
  {
    if items != [] {
      FilterAll(items[1..], keep);
      forall i | 1 <= i < |items| ensures items[i] == items[1..][i - 1] {
      }
      if forall i :: 0 <= i < |items| ==> !keep(items[i]) {
        forall i | 0 <= i < |items[1..]| ensures !keep(items[1..][i]) {
          assert items[1..][i] == items[i + 1];
        }
      }
    }
  }

  function Mapped<T, U>(items: seq<T>, f: T -> U): seq<U> {
    seq(|items|, i requires 0 <= i < |items| => f(items[i]))
  }

  lemma MappedAppend<T, U>(a: seq<T>, b: seq<T>, f: T -> U)
    ensures Mapped(a + b, f) == Mapped(a, f) + Mapped(b, f)
  {
  }

  /** The lists one after the other. */
  function Flat<T>(lists: seq<seq<T>>): seq<T> {
    if lists == [] then [] else lists[0] + Flat(lists[1..])
  }

  lemma {:induction false} FlatLast<T>(lists: seq<seq<T>>, last: seq<T>)
    ensures Flat(lists + [last]) == Flat(lists) + last
  {
    if lists == [] {
      assert lists + [last] == [last] && [last][1..] == [];
      assert last + [] == last && [] + last == last;
    } else {
      FlatLast(lists[1..], last);
      assert (lists + [last])[0] == lists[0] && (lists + [last])[1..] == lists[1..] + [last];
      AppendAssociates(lists[0], Flat(lists[1..]), last);
    }
  }

  lemma AppendAssociates<T>(a: seq<T>, b: seq<T>, c: seq<T>)
    ensures a + (b + c) == (a + b) + c
  {
  }
}
