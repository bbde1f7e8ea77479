/** Offloaded payloads: files written by path, and an index from content digest to the path already holding it. */
module Offload {
  import opened Wrappers

  type Path = string
  type Digest = string
  type Hash = string -> Digest

  datatype Store = Store(files: map<Path, string>, index: map<Digest, Path>)

  const EMPTY: Store := Store(map[], map[])

  datatype Facts = Facts(savedPath: Path, sameContentAs: Option<Path>)

  // One call: the payload as the text that will be paged, and the path it is meant for.
  datatype Write = Write(path: Path, text: string)

  predicate Known(s: Store, text: string, hash: Hash) {
    hash(text) in s.index
  }

  /** A known text is addressed, a new one is written and remembered. */
  function Put(s: Store, w: Write, hash: Hash): Store {
    if Known(s, w.text, hash) then s else Store(s.files[w.path := w.text], s.index[hash(w.text) := w.path])
  }

  predicate Holds(s: Store, path: Path, digest: Digest, hash: Hash) {
    path in s.files && hash(s.files[path]) == digest
  }

  ghost predicate IndexSound(s: Store, hash: Hash) {
    forall d :: d in s.index ==> Holds(s, s.index[d], d, hash)
  }

  class OffloadStore {
    var files: map<Path, string>
    var index: map<Digest, Path>
    const hash: Hash

    function Value(): Store
      reads this
    {
      Store(files, index)
    }

    constructor (hash: Hash)
      ensures Value() == EMPTY && this.hash == hash
    {
      files, index, this.hash := map[], map[], hash;
    }

    /** Returns a path; while the index is sound, that path holds a text with the payload's digest. */
    method StoreOffloadedPayload(path: Path, text: string) returns (facts: Facts)
      modifies this
      ensures Value() == Put(old(Value()), Write(path, text), hash)
      ensures hash(text) in old(index) ==> files == old(files) && index == old(index)
      ensures hash(text) !in old(index) ==> files == old(files)[path := text] && index == old(index)[hash(text) := path]
      ensures hash(text) in index && facts.savedPath == index[hash(text)]
      ensures facts.sameContentAs == if hash(text) in old(index) then Some(facts.savedPath) else None
      ensures old(IndexSound(Value(), hash)) ==> Holds(Value(), facts.savedPath, hash(text), hash)
    {
      var digest := hash(text);
      if digest in index {
        return Facts(index[digest], Some(index[digest]));
      }
      files := files[path := text];
      index := index[digest := path];
      return Facts(path, None);
    }
  }

  /** One write keeps the index sound exactly when the text is known or its path is not in the index yet. */
  lemma PutKeepsSoundIff(s: Store, w: Write, hash: Hash)
    requires IndexSound(s, hash)
    ensures IndexSound(Put(s, w, hash), hash) <==> Known(s, w.text, hash) || w.path !in s.index.Values
  {
    var next := Put(s, w, hash);
    if !Known(s, w.text, hash) {
      if w.path in s.index.Values {
        var d :| d in s.index && s.index[d] == w.path;
        assert next.index[d] == w.path && hash(next.files[w.path]) != d;
      } else {
        forall d | d in next.index ensures Holds(next, next.index[d], d, hash) {
          if d in s.index {
            assert s.index[d] in s.index.Values;
          }
        }
      }
    }
  }

  // ---- Whole sequences of writes ----

  function PutAll(writes: seq<Write>, hash: Hash): Store {
    if writes == [] then EMPTY else Put(PutAll(writes[..|writes| - 1], hash), writes[|writes| - 1], hash)
  }

  /** No earlier write had the same digest. */
  predicate IsNew(writes: seq<Write>, i: nat, hash: Hash)
    requires i < |writes|
  {
    forall j :: 0 <= j < i ==> hash(writes[j].text) != hash(writes[i].text)
  }

  /** New contents never share a path. */
  ghost predicate NewPathsDistinct(writes: seq<Write>, hash: Hash) {
    forall i, j :: 0 <= i < j < |writes| && IsNew(writes, i, hash) && IsNew(writes, j, hash) ==> writes[i].path != writes[j].path
  }

  /** The index knows exactly the digests written, each at the path of its first write. */
  ghost predicate IndexMatches(s: Store, writes: seq<Write>, hash: Hash) {
    && (forall i :: 0 <= i < |writes| && IsNew(writes, i, hash) ==>
          hash(writes[i].text) in s.index && s.index[hash(writes[i].text)] == writes[i].path)
    && (forall d :: d in s.index ==> exists i :: 0 <= i < |writes| && IsNew(writes, i, hash) && hash(writes[i].text) == d)
  }

  lemma {:induction false} FirstOfDigest(writes: seq<Write>, i: nat, hash: Hash) returns (first: nat)
    requires i < |writes|
    ensures first <= i && IsNew(writes, first, hash) && hash(writes[first].text) == hash(writes[i].text)
  {
    if IsNew(writes, i, hash) {
      first := i;
    } else {
      var j :| 0 <= j < i && hash(writes[j].text) == hash(writes[i].text);
      first := FirstOfDigest(writes, j, hash);
    }
  }

  lemma IsNewInPrefix(writes: seq<Write>, n: nat, i: nat, hash: Hash)
    requires i < n <= |writes|
    ensures IsNew(writes[..n], i, hash) <==> IsNew(writes, i, hash)
  {
    var before := writes[..n];
    assert before[i] == writes[i] && forall j :: 0 <= j < i ==> before[j] == writes[j];
  }

  lemma {:induction false} PutAllIndexes(writes: seq<Write>, hash: Hash)
    ensures IndexMatches(PutAll(writes, hash), writes, hash)
    ensures writes != [] ==>
      (Known(PutAll(writes[..|writes| - 1], hash), writes[|writes| - 1].text, hash) <==> !IsNew(writes, |writes| - 1, hash))
  {
    if writes != [] {
      var n := |writes| - 1;
      var before, last := writes[..n], writes[n];
      var s := PutAll(before, hash);
      PutAllIndexes(before, hash);
      forall i | 0 <= i < n ensures IsNew(before, i, hash) <==> IsNew(writes, i, hash) {
        IsNewInPrefix(writes, n, i, hash);
      }
      if !IsNew(writes, n, hash) {
        var j :| 0 <= j < n && hash(writes[j].text) == hash(last.text);
        var first := FirstOfDigest(before, j, hash);
        assert hash(before[first].text) in s.index;
      }
      MatchesAfter(s, writes, hash);
    }
  }

  lemma MatchesAfter(s: Store, writes: seq<Write>, hash: Hash)
    requires writes != [] && IndexMatches(s, writes[..|writes| - 1], hash)
    requires Known(s, writes[|writes| - 1].text, hash) <==> !IsNew(writes, |writes| - 1, hash)
    ensures IndexMatches(Put(s, writes[|writes| - 1], hash), writes, hash)
  {
    var n := |writes| - 1;
    var before, last := writes[..n], writes[n];
    var next := Put(s, last, hash);
    forall i | 0 <= i < |writes| && IsNew(writes, i, hash)
      ensures hash(writes[i].text) in next.index && next.index[hash(writes[i].text)] == writes[i].path
    {
      if i < n {
        IsNewInPrefix(writes, n, i, hash);
        assert before[i] == writes[i];
      }
    }
    forall d | d in next.index ensures exists i :: 0 <= i < |writes| && IsNew(writes, i, hash) && hash(writes[i].text) == d {
      if d in s.index {
        var i :| 0 <= i < n && IsNew(before, i, hash) && hash(before[i].text) == d;
        IsNewInPrefix(writes, n, i, hash);
      } else {
        assert IsNew(writes, n, hash);
      }
    }
  }

  /** After any writes, the index is sound exactly when new contents never shared a path. */
  lemma {:induction false} IndexSoundIff(writes: seq<Write>, hash: Hash)
    ensures IndexSound(PutAll(writes, hash), hash) <==> NewPathsDistinct(writes, hash)
  {
    PutAllIndexes(writes, hash);
    var s := PutAll(writes, hash);
    if NewPathsDistinct(writes, hash) {
      DistinctKeepsSound(writes, hash);
    } else {
      var i, j :| 0 <= i < j < |writes| && IsNew(writes, i, hash) && IsNew(writes, j, hash) && writes[i].path == writes[j].path;
      var a, b := hash(writes[i].text), hash(writes[j].text);
      assert a != b && a in s.index && b in s.index && s.index[a] == s.index[b];
      assert !(Holds(s, s.index[a], a, hash) && Holds(s, s.index[b], b, hash));
    }
  }

  lemma NewPathIsFree(s: Store, writes: seq<Write>, hash: Hash)
    requires writes != [] && NewPathsDistinct(writes, hash) && IsNew(writes, |writes| - 1, hash)
    requires IndexMatches(s, writes[..|writes| - 1], hash)
    ensures writes[|writes| - 1].path !in s.index.Values
  {
    var n := |writes| - 1;
    var before := writes[..n];
    forall d | d in s.index ensures s.index[d] != writes[n].path {
      var i :| 0 <= i < n && IsNew(before, i, hash) && hash(before[i].text) == d;
      IsNewInPrefix(writes, n, i, hash);
      assert s.index[d] == before[i].path == writes[i].path;
    }
  }

  lemma DistinctPrefix(writes: seq<Write>, n: nat, hash: Hash)
    requires n <= |writes| && NewPathsDistinct(writes, hash)
    ensures NewPathsDistinct(writes[..n], hash)
  {
    var before := writes[..n];
    forall i, j | 0 <= i < j < n && IsNew(before, i, hash) && IsNew(before, j, hash) ensures before[i].path != before[j].path {
      IsNewInPrefix(writes, n, i, hash);
      IsNewInPrefix(writes, n, j, hash);
    }
  }

  lemma {:induction false} DistinctKeepsSound(writes: seq<Write>, hash: Hash)
    requires NewPathsDistinct(writes, hash)
    ensures IndexSound(PutAll(writes, hash), hash)
  {
    if writes != [] {
      var n := |writes| - 1;
      DistinctPrefix(writes, n, hash);
      DistinctKeepsSound(writes[..n], hash);
      PutAllIndexes(writes[..n], hash);
      PutAllIndexes(writes, hash);
      PutKeepsSoundIff(PutAll(writes[..n], hash), writes[n], hash);
      hide IndexSound, Put, IndexMatches, Known, NewPathsDistinct;
      if IsNew(writes, n, hash) {
        NewPathIsFree(PutAll(writes[..n], hash), writes, hash);
      }
    }
  }

  /** The path returned for the i-th write. */
  function SavedPath(writes: seq<Write>, i: nat, hash: Hash): Path
    requires i < |writes|
  {
    var s := PutAll(writes[..i + 1], hash);
    assert writes[..i + 1][..i] == writes[..i];
    s.index[hash(writes[i].text)]
  }

  lemma {:induction false} SavedPathStays(writes: seq<Write>, i: nat, hash: Hash)
    requires i < |writes|
    ensures hash(writes[i].text) in PutAll(writes, hash).index
    ensures PutAll(writes, hash).index[hash(writes[i].text)] == SavedPath(writes, i, hash)
  {
    var n := |writes| - 1;
    if i == n {
      assert writes[..i + 1] == writes;
    } else {
      SavedPathStays(writes[..n], i, hash);
      assert writes[..n][..i + 1] == writes[..i + 1];
    }
  }

  /** Every returned path still holds its payload's digest at the end exactly when new contents never shared a path. */
  lemma PayloadsAreFoundIff(writes: seq<Write>, hash: Hash)
    ensures NewPathsDistinct(writes, hash) <==>
              forall i :: 0 <= i < |writes| ==> Holds(PutAll(writes, hash), SavedPath(writes, i, hash), hash(writes[i].text), hash)
  {
    IndexSoundIff(writes, hash);
    PutAllIndexes(writes, hash);
    var s := PutAll(writes, hash);
    forall i | 0 <= i < |writes| ensures hash(writes[i].text) in s.index && s.index[hash(writes[i].text)] == SavedPath(writes, i, hash) {
      SavedPathStays(writes, i, hash);
    }
    if forall i :: 0 <= i < |writes| ==> Holds(s, SavedPath(writes, i, hash), hash(writes[i].text), hash) {
      forall d | d in s.index ensures Holds(s, s.index[d], d, hash) {
        var i :| 0 <= i < |writes| && IsNew(writes, i, hash) && hash(writes[i].text) == d;
        assert s.index[d] == SavedPath(writes, i, hash);
      }
    }
  }

  /** The failing family: one page's view changes from a to b and back; the third write returns the path holding b. */
  lemma PageViewsCollide(path: Path, a: string, b: string, hash: Hash)
    requires hash(a) != hash(b)
    ensures var s := PutAll([Write(path, a), Write(path, b), Write(path, a)], hash);
            && SavedPath([Write(path, a), Write(path, b), Write(path, a)], 2, hash) == path
            && path in s.files && s.files[path] == b
  {
    var writes := [Write(path, a), Write(path, b), Write(path, a)];
    assert writes[..2] == [Write(path, a), Write(path, b)] && writes[..2][..1] == [Write(path, a)];
    assert writes[..3] == writes && [Write(path, a)][..0] == [];
    assert PutAll([Write(path, a)], hash) == Store(map[path := a], map[hash(a) := path]);
    assert PutAll(writes[..2], hash) == Store(map[path := b], map[hash(a) := path, hash(b) := path]);
  }
}
