/** What holds of every run of the schema cache protocol, and exactly when: rebuilds, hits and the lock. */
module BootstrapResults {
  import opened Wrappers
  import opened Bootstrap

  // ---- Counting rebuilds ----

  /** The process can neither rebuild nor truncate the manifest any more. */
  predicate Spent(place: Place) {
    place.Releasing? || place.Done? || place.Crashed? || place.UpgradeTruncated?
  }

  function FreshCount(places: seq<Place>): nat {
    if places == [] then 0
    else if Spent(places[0]) then FreshCount(places[1..])
    else FreshCount(places[1..]) + 1
  }

  lemma {:induction false} FreshAfter(places: seq<Place>, p: nat, place: Place)
    requires p < |places|
    ensures FreshCount(places[p := place]) + (if Spent(places[p]) then 0 else 1)
         == FreshCount(places) + (if Spent(place) then 0 else 1)
  {
    var next := places[p := place];
    if p == 0 {
      assert next[1..] == places[1..];
    } else {
      FreshAfter(places[1..], p - 1, place);
      assert next[1..] == places[1..][p - 1 := place];
    }
  }

  lemma {:induction false} AllFresh(places: seq<Place>)
    requires forall i :: 0 <= i < |places| ==> places[i].Start?
    ensures FreshCount(places) == |places|
  {
    if places != [] {
      AllFresh(places[1..]);
    }
  }

  /** Past the recheck, on the way to a rebuild. */
  predicate Committed(place: Place) {
    match place
    case LockedRead(seen) => !seen
    case Building | Removing | Renaming | Renamed | Truncated => true
    case _ => false
  }

  ghost predicate Good(s: State, d: Digest) {
    && Says(s.disk.manifest, d) && FilesFor(s.disk.schemas, d)
    && forall p: Pid :: p < |s.places| ==> !Committed(s.places[p])
  }

  /** Rebuilds done, and those still possible: on a good cache each takes one process to truncate and one to rebuild. */
  ghost function Potential(s: State, d: Digest): nat {
    s.rebuilds + if Good(s, d) then FreshCount(s.places) / 2 else (FreshCount(s.places) + 1) / 2
  }

  /** What one step can do to a good cache, and what a completed rebuild leaves. */
  lemma StepOnGood(place: Place, disk: Disk, p: Pid, move: Move, me: Identity)
    requires PlaceOk(place, p, disk, me.digest)
    ensures var next := LocalStep(place, disk, p, move, me);
            && (Spent(place) ==> Spent(next.place))
            && next.rebuilt <= 1
            && (next.rebuilt == 1 ==> place.Truncated? && !Committed(next.place) && Spent(next.place)
                                      && Says(next.disk.manifest, me.digest) && FilesFor(next.disk.schemas, me.digest))
            && (Says(disk.manifest, me.digest) && FilesFor(disk.schemas, me.digest) && !Committed(place) ==>
                  (Says(next.disk.manifest, me.digest) && FilesFor(next.disk.schemas, me.digest) && !Committed(next.place))
                  || (place.Upgrading? && next.place.UpgradeTruncated?))
  {
  }

  lemma StepKeepsPotential(s: State, p: Pid, move: Move, crew: Crew, d: Digest)
    requires Shared(crew, d) && Inv(s, d) && p < |s.places|
    ensures Potential(Step(s, p, move, crew), d) <= Potential(s, d)
  {
    var next := Step(s, p, move, crew);
    var local := LocalStep(s.places[p], s.disk, p, move, crew(p));
    assert crew(p).digest == d && PlaceOk(s.places[p], p, s.disk, d);
    StepOnGood(s.places[p], s.disk, p, move, crew(p));
    FreshAfter(s.places, p, local.place);
    assert next.places == s.places[p := local.place];
    hide LocalStep, FreshCount;
    if local.rebuilt == 1 {
      forall q: Pid | q < |next.places| ensures !Committed(next.places[q]) {
        if q != p {
          assert PlaceOk(s.places[q], q, s.disk, d);
        }
      }
      assert !Good(s, d);
    } else if Good(s, d) && !Good(next, d) {
      assert s.places[p].Upgrading? && next.places[p].UpgradeTruncated?;
    }
  }

  lemma {:induction false} RunKeepsPotential(s: State, trace: Trace, crew: Crew, d: Digest)
    requires Shared(crew, d) && Inv(s, d)
    ensures Potential(Run(s, trace, crew), d) <= Potential(s, d)
    decreases |trace|
  {
    if trace != [] {
      var (p, move) := trace[0];
      if p < |s.places| {
        StepKeepsInv(s, p, move, crew, d);
        StepKeepsPotential(s, p, move, crew, d);
      }
      RunKeepsPotential(if p < |s.places| then Step(s, p, move, crew) else s, trace[1..], crew, d);
    }
  }

  /** With one digest and n processes: at most n / 2 rebuilds from a good cache, at most (n + 1) / 2 from any other. */
  lemma RebuildBound(manifest: Manifest, schemas: Schemas, n: nat, trace: Trace, crew: Crew, d: Digest)
    requires Shared(crew, d) && (Says(manifest, d) ==> ForDigest(schemas, d))
    ensures Run(Initial(manifest, schemas, n), trace, crew).rebuilds
         <= if Says(manifest, d) && FilesFor(schemas, d) then n / 2 else (n + 1) / 2
  {
    var s := Initial(manifest, schemas, n);
    AllFresh(s.places);
    RunKeepsPotential(s, trace, crew, d);
  }

  /** At most one rebuild in every run: always for two processes, from a good cache for three, from a clean start for more. */
  predicate RebuildsOnce(manifest: Manifest, schemas: Schemas, crew: Crew, n: nat, d: Digest) {
    n <= 2 || (n == 3 && Says(manifest, d) && FilesFor(schemas, d)) || CleanStart(manifest, schemas, crew, n, d)
  }

  /** For any number of processes sharing one digest. */
  lemma RebuildsAtMostOnceIff(manifest: Manifest, schemas: Schemas, n: nat, crew: Crew, d: Digest)
    requires Shared(crew, d) && (Says(manifest, d) ==> ForDigest(schemas, d))
    ensures RebuildsAtMostOnce(Initial(manifest, schemas, n), crew) <==> RebuildsOnce(manifest, schemas, crew, n, d)
  {
    var s := Initial(manifest, schemas, n);
    if RebuildsOnce(manifest, schemas, crew, n, d) {
      forall trace: Trace ensures Run(s, trace, crew).rebuilds <= 1 {
        RebuildBound(manifest, schemas, n, trace, crew, d);
        if CleanStart(manifest, schemas, crew, n, d) {
          CleanRunRebuildsOnce(s, trace, crew, d);
        }
      }
    } else if !Says(manifest, d) {
      var p, q, r := SomebodyDisagrees(crew, n);
      DisagreementRebuildsTwice(s, p, q, r, crew, d);
    } else if schemas.Missing? {
      NoFilesRebuildsTwice(manifest, n, crew, d);
    } else {
      var q: Pid :| q < n && Stale(manifest, crew(q));
      var a, b, c := OthersThan(n, q);
      if Stale(manifest, crew(a)) {
        OldManifestRebuildsTwice(s, q, a, b, c, crew, d);
      } else {
        OddOneRebuildsTwice(s, q, a, b, c, crew, d);
      }
    }
  }

  // ---- Whose files a hit sees ----

  ghost predicate HitsOwnFiles(s: State, crew: Crew) {
    forall trace: Trace, p: Pid :: p < |Run(s, trace, crew).places| && Run(s, trace, crew).places[p].Done? ==>
      OutcomeOk(Run(s, trace, crew).places[p].outcome, crew(p).digest)
  }

  /** Whoever finds its digest in the manifest finds its own files, and everybody has that digest. */
  predicate ManifestIsShared(manifest: Manifest, schemas: Schemas, crew: Crew, n: nat) {
    forall p: Pid :: p < n && Says(manifest, crew(p).digest) ==>
      ForDigest(schemas, crew(p).digest) && forall q: Pid :: q < n ==> crew(q).digest == crew(p).digest
  }

  /** Two processes share a digest only if all do. */
  predicate NoPairAndStranger(crew: Crew, n: nat) {
    forall p: Pid, r: Pid, q: Pid :: p < n && r < n && q < n && p != r && crew(p).digest == crew(r).digest ==>
      crew(q).digest == crew(p).digest
  }

  lemma {:induction false} PlacesStay(s: State, trace: Trace, crew: Crew)
    ensures |Run(s, trace, crew).places| == |s.places|
    decreases |trace|
  {
    if trace != [] {
      var (p, move) := trace[0];
      PlacesStay(if p < |s.places| then Step(s, p, move, crew) else s, trace[1..], crew);
    }
  }

  lemma {:induction false} OnlyTheCrewCounts(s: State, trace: Trace, crew: Crew, other: Crew)
    requires forall p: Pid :: p < |s.places| ==> crew(p) == other(p)
    ensures Run(s, trace, crew) == Run(s, trace, other)
    decreases |trace|
  {
    if trace != [] {
      var (p, move) := trace[0];
      OnlyTheCrewCounts(if p < |s.places| then Step(s, p, move, crew) else s, trace[1..], crew, other);
    }
  }

  predicate NotAHit(place: Place) {
    match place
    case Releasing(outcome) => !outcome.Hit? && !outcome.HitAfterTimeout? && !outcome.HitAfterWait?
    case Done(outcome) => !outcome.Hit? && !outcome.HitAfterTimeout? && !outcome.HitAfterWait?
    case _ => true
  }

  predicate Gone(place: Place) {
    place.Releasing? || place.Done? || place.Crashed?
  }

  /** Nobody has read its own digest, and where the manifest holds it the process has nothing left to read. */
  ghost predicate NobodyMeetsItself(s: State, crew: Crew) {
    forall p: Pid :: p < |s.places| ==>
      PendingPlace(s.places[p]) && NotAHit(s.places[p]) && (Says(s.disk.manifest, crew(p).digest) ==> Gone(s.places[p]))
  }

  lemma StepAlone(place: Place, disk: Disk, p: Pid, move: Move, me: Identity)
    requires PendingPlace(place) && NotAHit(place) && (Says(disk.manifest, me.digest) ==> Gone(place))
    ensures var next := LocalStep(place, disk, p, move, me);
            && PendingPlace(next.place) && NotAHit(next.place)
            && (Says(next.disk.manifest, me.digest) ==> Gone(next.place)) && (Gone(place) ==> Gone(next.place))
            && (next.disk.manifest == disk.manifest || next.disk.manifest == Unreadable || Says(next.disk.manifest, me.digest))
  {
  }

  lemma {:induction false} DistinctNeverHit(s: State, trace: Trace, crew: Crew)
    requires NobodyMeetsItself(s, crew)
    requires forall p: Pid, q: Pid :: p < |s.places| && q < |s.places| && p != q ==> crew(p).digest != crew(q).digest
    ensures NobodyMeetsItself(Run(s, trace, crew), crew)
    decreases |trace|
  {
    if trace != [] {
      var (p, move) := trace[0];
      var next := if p < |s.places| then Step(s, p, move, crew) else s;
      if p < |s.places| {
        StepAlone(s.places[p], s.disk, p, move, crew(p));
        hide LocalStep;
        forall q: Pid | q < |next.places|
          ensures PendingPlace(next.places[q]) && NotAHit(next.places[q])
          ensures Says(next.disk.manifest, crew(q).digest) ==> Gone(next.places[q])
        {
          assert q != p ==> next.places[q] == s.places[q] && crew(q).digest != crew(p).digest;
        }
      }
      DistinctNeverHit(next, trace[1..], crew);
    }
  }

  /** Whoever starts with its digest in the manifest and some files beside it can hit on them. */
  lemma WalkToAnyHit(s: State, p: Pid, crew: Crew) returns (trace: Trace)
    requires p < |s.places| && s.places[p].Start?
    requires Says(s.disk.manifest, crew(p).digest) && s.disk.schemas.Files?
    ensures |Run(s, trace, crew).places| == |s.places| && Run(s, trace, crew).places[p] == Done(Hit(s.disk.schemas))
  {
    if Stale(s.disk.manifest, crew(p)) {
      WalkToUpgrading(s, p, crew);
      UpgradeAlone(Run(s, Advances(p, 3), crew), p, crew);
      RunAppend(s, Advances(p, 3), Advances(p, 2), crew);
      trace := Advances(p, 3) + Advances(p, 2);
    } else {
      WalkToHit(s, p, crew);
      trace := Advances(p, 3);
    }
    hide Run, Advances;
  }

  /** A process with another digest swaps the files before the manifest follows, and a reader trusts the old manifest. */
  lemma SwapUnderReader(s: State, p: Pid, q: Pid, crew: Crew) returns (trace: Trace)
    requires p < |s.places| && q < |s.places| && s.places[p].Start? && s.places[q].Start? && s.disk.lock.None?
    requires Says(s.disk.manifest, crew(p).digest) && crew(q).digest != crew(p).digest
    ensures |Run(s, trace, crew).places| == |s.places|
    ensures Run(s, trace, crew).places[p] == Done(Hit(Files(crew(q).digest, true)))
  {
    WalkToBuilding(s, q, crew);
    var s1 := Run(s, Advances(q, 6), crew);
    WalkToRenamed(s1, q, crew);
    var s2 := Run(s1, Advances(q, 3), crew);
    hide Run, Advances;
    var hit := WalkToAnyHit(s2, p, crew);
    RunAppend(s1, Advances(q, 3), hit, crew);
    RunAppend(s, Advances(q, 6), Advances(q, 3) + hit, crew);
    trace := Advances(q, 6) + (Advances(q, 3) + hit);
  }

  /** Two processes, a good cache, and still a hit on the other one's files. */
  lemma TwoDigestsMixUp(manifest: Manifest, crew: Crew) returns (trace: Trace)
    requires crew(0).digest != crew(1).digest && Says(manifest, crew(0).digest)
    ensures var end := Run(Initial(manifest, Files(crew(0).digest, true), 2), trace, crew);
            |end.places| == 2 && end.places[0] == Done(Hit(Files(crew(1).digest, true)))
  {
    trace := SwapUnderReader(Initial(manifest, Files(crew(0).digest, true), 2), 0, 1, crew);
    hide Run;
  }

  lemma SharedHitsOwnFiles(manifest: Manifest, schemas: Schemas, n: nat, crew: Crew, d: Digest)
    requires forall p: Pid :: p < n ==> crew(p).digest == d
    requires Says(manifest, d) ==> ForDigest(schemas, d)
    ensures HitsOwnFiles(Initial(manifest, schemas, n), crew)
  {
    var s := Initial(manifest, schemas, n);
    var all: Crew := (p: Pid) => if p < n then crew(p) else Identity(d, "", "");
    forall trace: Trace, p: Pid | p < |Run(s, trace, crew).places| && Run(s, trace, crew).places[p].Done?
      ensures OutcomeOk(Run(s, trace, crew).places[p].outcome, crew(p).digest)
    {
      OnlyTheCrewCounts(s, trace, crew, all);
      PlacesStay(s, trace, crew);
      BootstrapIsSafe(manifest, schemas, n, trace, all, d);
    }
  }

  lemma DistinctHitsOwnFiles(manifest: Manifest, schemas: Schemas, n: nat, crew: Crew)
    requires forall p: Pid, q: Pid :: p < n && q < n && p != q ==> crew(p).digest != crew(q).digest
    requires forall p: Pid :: p < n ==> !Says(manifest, crew(p).digest)
    ensures HitsOwnFiles(Initial(manifest, schemas, n), crew)
  {
    var s := Initial(manifest, schemas, n);
    forall trace: Trace, p: Pid | p < |Run(s, trace, crew).places| && Run(s, trace, crew).places[p].Done?
      ensures OutcomeOk(Run(s, trace, crew).places[p].outcome, crew(p).digest)
    {
      DistinctNeverHit(s, trace, crew);
      assert NotAHit(Run(s, trace, crew).places[p]);
    }
  }

  lemma BadHitRefutes(s: State, trace: Trace, p: Pid, saw: Schemas, crew: Crew)
    requires p < |Run(s, trace, crew).places| && Run(s, trace, crew).places[p] == Done(Hit(saw))
    requires !FilesFor(saw, crew(p).digest)
    ensures !HitsOwnFiles(s, crew)
  {
    assert !OutcomeOk(Run(s, trace, crew).places[p].outcome, crew(p).digest);
  }

  /** For any digests, any number of processes and any start: when every hit of every run sees its own digest's files. */
  lemma HitsOwnFilesIff(manifest: Manifest, schemas: Schemas, n: nat, crew: Crew)
    ensures HitsOwnFiles(Initial(manifest, schemas, n), crew) <==>
              ManifestIsShared(manifest, schemas, crew, n) && NoPairAndStranger(crew, n)
  {
    var s := Initial(manifest, schemas, n);
    if ManifestIsShared(manifest, schemas, crew, n) && NoPairAndStranger(crew, n) {
      if p: Pid :| p < n && Says(manifest, crew(p).digest) {
        SharedHitsOwnFiles(manifest, schemas, n, crew, crew(p).digest);
      } else if p: Pid, r: Pid :| p < n && r < n && p != r && crew(p).digest == crew(r).digest {
        SharedHitsOwnFiles(manifest, schemas, n, crew, crew(p).digest);
      } else {
        DistinctHitsOwnFiles(manifest, schemas, n, crew);
      }
    } else if !ManifestIsShared(manifest, schemas, crew, n) {
      UnsharedManifestMixesUp(manifest, schemas, n, crew);
    } else {
      PairAndStrangerMixUp(manifest, schemas, n, crew);
    }
  }

  lemma UnsharedManifestMixesUp(manifest: Manifest, schemas: Schemas, n: nat, crew: Crew)
    requires !ManifestIsShared(manifest, schemas, crew, n)
    ensures !HitsOwnFiles(Initial(manifest, schemas, n), crew)
  {
    var s := Initial(manifest, schemas, n);
    var p: Pid :| p < n && Says(manifest, crew(p).digest)
                  && !(ForDigest(schemas, crew(p).digest) && forall q: Pid :: q < n ==> crew(q).digest == crew(p).digest);
    if !ForDigest(schemas, crew(p).digest) {
      var trace := WalkToAnyHit(s, p, crew);
      BadHitRefutes(s, trace, p, schemas, crew);
    } else {
      var q: Pid :| q < n && crew(q).digest != crew(p).digest;
      var trace := SwapUnderReader(s, p, q, crew);
      BadHitRefutes(s, trace, p, Files(crew(q).digest, true), crew);
    }
  }

  lemma PairAndStrangerMixUp(manifest: Manifest, schemas: Schemas, n: nat, crew: Crew)
    requires ManifestIsShared(manifest, schemas, crew, n) && !NoPairAndStranger(crew, n)
    ensures !HitsOwnFiles(Initial(manifest, schemas, n), crew)
  {
    var s := Initial(manifest, schemas, n);
    var p: Pid, r: Pid, q: Pid :| p < n && r < n && q < n && p != r && crew(p).digest == crew(r).digest
                                  && crew(q).digest != crew(p).digest;
    if Says(manifest, crew(p).digest) {
      assert false;
    }
    var rebuild := WalkThrough(s, r, crew);
    var s1 := Run(s, rebuild, crew);
    var hit := SwapUnderReader(s1, p, q, crew);
    RunAppend(s, rebuild, hit, crew);
    BadHitRefutes(s, rebuild + hit, p, Files(crew(q).digest, true), crew);
  }

  // ---- Whether a hit sees whole files ----

  predicate OutcomeWhole(outcome: Outcome) {
    match outcome
    case Hit(saw) => saw.Files? && saw.whole
    case HitAfterTimeout(saw) => saw.Files? && saw.whole
    case HitAfterWait(saw) => saw.Files? && saw.whole
    case _ => true
  }

  predicate SawWhole(place: Place) {
    match place
    case Upgrading(saw) => saw.Files? && saw.whole
    case UpgradeTruncated(saw) => saw.Files? && saw.whole
    case Releasing(outcome) => OutcomeWhole(outcome)
    case Done(outcome) => OutcomeWhole(outcome)
    case _ => true
  }

  ghost predicate HitsWholeFiles(s: State, crew: Crew) {
    forall trace: Trace, p: Pid :: p < |Run(s, trace, crew).places| && Run(s, trace, crew).places[p].Done? ==>
      OutcomeWhole(Run(s, trace, crew).places[p].outcome)
  }

  lemma StepSeesWhole(place: Place, disk: Disk, p: Pid, move: Move, me: Identity)
    requires SawWhole(place)
    requires (PendingPlace(place) && NotAHit(place))
             || (SettledPlace(place) && disk.schemas.Files? && disk.schemas.whole)
    ensures SawWhole(LocalStep(place, disk, p, move, me).place)
    ensures PendingPlace(place) && NotAHit(place) ==> NotAHit(LocalStep(place, disk, p, move, me).place)
  {
  }

  ghost predicate WholeSoFar(s: State, crew: Crew, d: Digest) {
    && (forall p: Pid :: p < |s.places| ==> SawWhole(s.places[p]))
    && ((Pending(s, crew, d) && forall p: Pid :: p < |s.places| ==> NotAHit(s.places[p]))
        || (Settled(s, crew, d) && s.disk.schemas.whole))
  }

  lemma StepKeepsWhole(s: State, p: Pid, move: Move, crew: Crew, d: Digest)
    requires Shared(crew, d) && Inv(s, d) && WholeSoFar(s, crew, d) && p < |s.places|
    ensures WholeSoFar(Step(s, p, move, crew), crew, d)
  {
    var next := Step(s, p, move, crew);
    assert crew(p).digest == d && PlaceOk(s.places[p], p, s.disk, d);
    StepSeesWhole(s.places[p], s.disk, p, move, crew(p));
    if Pending(s, crew, d) {
      PendingStep(s, p, move, crew, d);
      WholeAfterRebuild(s.places[p], s.disk, p, move, crew(p));
    } else {
      SettledStep(s, p, move, crew, d);
      SettledFilesStay(s.places[p], s.disk, p, move, crew(p));
    }
    hide LocalStep;
  }

  lemma WholeAfterRebuild(place: Place, disk: Disk, p: Pid, move: Move, me: Identity)
    requires PlaceOk(place, p, disk, me.digest) && PendingPlace(place) && !Says(disk.manifest, me.digest)
    ensures var next := LocalStep(place, disk, p, move, me);
            Says(next.disk.manifest, me.digest) ==> next.disk.schemas == Files(me.digest, true)
  {
  }

  lemma SettledFilesStay(place: Place, disk: Disk, p: Pid, move: Move, me: Identity)
    requires SettledPlace(place) && disk.schemas.Files?
    ensures LocalStep(place, disk, p, move, me).disk.schemas == disk.schemas || Holding(place)
    ensures LocalStep(place, disk, p, move, me).disk.schemas == disk.schemas
  {
  }

  lemma {:induction false} RunKeepsWhole(s: State, trace: Trace, crew: Crew, d: Digest)
    requires Shared(crew, d) && Inv(s, d) && WholeSoFar(s, crew, d)
    ensures WholeSoFar(Run(s, trace, crew), crew, d)
    decreases |trace|
  {
    if trace != [] {
      var (p, move) := trace[0];
      if p < |s.places| {
        StepKeepsInv(s, p, move, crew, d);
        StepKeepsWhole(s, p, move, crew, d);
      }
      RunKeepsWhole(if p < |s.places| then Step(s, p, move, crew) else s, trace[1..], crew, d);
    }
  }

  /** Clean, and no partly removed directory beside a good manifest. */
  predicate WholeStart(manifest: Manifest, schemas: Schemas, crew: Crew, n: nat, d: Digest) {
    CleanStart(manifest, schemas, crew, n, d) && (Says(manifest, d) ==> schemas.whole)
  }

  /** From a clean start with whole files, for any number of processes, every hit sees all files of its digest. */
  lemma CleanHitsWholeFiles(manifest: Manifest, schemas: Schemas, n: nat, crew: Crew, d: Digest)
    requires Shared(crew, d) && WholeStart(manifest, schemas, crew, n, d)
    ensures HitsWholeFiles(Initial(manifest, schemas, n), crew)
  {
    var s := Initial(manifest, schemas, n);
    forall trace: Trace, p: Pid | p < |Run(s, trace, crew).places| && Run(s, trace, crew).places[p].Done?
      ensures OutcomeWhole(Run(s, trace, crew).places[p].outcome)
    {
      RunKeepsWhole(s, trace, crew, d);
      assert SawWhole(Run(s, trace, crew).places[p]);
    }
  }

  /** Reading up to the file check, with the digest in the manifest. */
  lemma WalkToFileCheck(s: State, p: Pid, crew: Crew)
    requires p < |s.places| && s.places[p].Start? && Says(s.disk.manifest, crew(p).digest)
    ensures Run(s, Advances(p, 2), crew)
         == At(s, p, ReadMetadata(true, Stale(s.disk.manifest, crew(p))), s.disk, s.rebuilds)
  {
    hide Run, Advances, At;
    var disk, n := s.disk, s.rebuilds;
    AlreadyAt(s, p);
    AdvanceOnce(s, p, Local(Start, disk, n), 2, crew);
    AdvanceOnce(s, p, Local(ReadHash(true), disk, n), 1, crew);
    NoAdvance(At(s, p, ReadMetadata(true, Stale(disk.manifest, crew(p))), disk, n), p, crew);
  }

  /** A rebuild half way through removing the files. */
  lemma WalkToHalfRemoved(s: State, p: Pid, crew: Crew) returns (trace: Trace)
    requires p < |s.places| && s.places[p].Start? && s.disk.lock.None?
    requires !Says(s.disk.manifest, crew(p).digest) && s.disk.schemas.Files?
    ensures Run(s, trace, crew)
         == At(s, p, Removing, s.disk.(lock := Some(p), schemas := Files(s.disk.schemas.digest, false)), s.rebuilds)
  {
    WalkToBuilding(s, p, crew);
    var building := Run(s, Advances(p, 6), crew);
    OneMove(building, p, Advance, crew);
    var removing := Run(building, [(p, Advance)], crew);
    OneMove(removing, p, RemoveSome, crew);
    RunAppend(building, [(p, Advance)], [(p, RemoveSome)], crew);
    RunAppend(s, Advances(p, 6), [(p, Advance)] + [(p, RemoveSome)], crew);
    trace := Advances(p, 6) + ([(p, Advance)] + [(p, RemoveSome)]);
    hide Run, Advances;
  }

  /** Past the file check a process that trusted the manifest ends in a hit on what is there. */
  lemma FinishHit(s: State, p: Pid, stale: bool, crew: Crew) returns (trace: Trace)
    requires p < |s.places| && s.places[p] == ReadMetadata(true, stale) && s.disk.schemas.Files?
    ensures |Run(s, trace, crew).places| == |s.places| && Run(s, trace, crew).places[p] == Done(Hit(s.disk.schemas))
  {
    OneMove(s, p, Advance, crew);
    var next := Run(s, [(p, Advance)], crew);
    if stale {
      UpgradeAlone(next, p, crew);
      RunAppend(s, [(p, Advance)], Advances(p, 2), crew);
      trace := [(p, Advance)] + Advances(p, 2);
    } else {
      trace := [(p, Advance)];
    }
    hide Run, Advances;
  }

  /** A manifest upgrade makes a good cache look unusable, a rebuild removes half of it, and a reader hits on the rest. */
  lemma HalfRemovedHit(s: State, u: Pid, r: Pid, p: Pid, crew: Crew, d: Digest) returns (trace: Trace)
    requires Shared(crew, d) && u < |s.places| && r < |s.places| && p < |s.places| && u != r && u != p && r != p
    requires s.places[u].Upgrading? && s.places[r].Start? && s.places[p].Start? && s.disk.lock.None?
    requires Says(s.disk.manifest, d) && FilesFor(s.disk.schemas, d)
    ensures |Run(s, trace, crew).places| == |s.places| && Run(s, trace, crew).places[p] == Done(Hit(Files(d, false)))
  {
    assert crew(p).digest == d && crew(r).digest == d;
    WalkToFileCheck(s, p, crew);
    var s1 := Run(s, Advances(p, 2), crew);
    OneMove(s1, u, Advance, crew);
    var s2 := Run(s1, [(u, Advance)], crew);
    assert s2.disk == s1.disk.(manifest := Unreadable);
    var half := WalkToHalfRemoved(s2, r, crew);
    var s3 := Run(s2, half, crew);
    hide Run, Advances, LocalStep;
    var hit := FinishHit(s3, p, Stale(s.disk.manifest, crew(p)), crew);
    RunAppend(s2, half, hit, crew);
    RunAppend(s1, [(u, Advance)], half + hit, crew);
    RunAppend(s, Advances(p, 2), [(u, Advance)] + (half + hit), crew);
    trace := Advances(p, 2) + ([(u, Advance)] + (half + hit));
  }

  lemma HalfHitRefutes(s: State, trace: Trace, p: Pid, saw: Schemas, crew: Crew)
    requires p < |Run(s, trace, crew).places| && Run(s, trace, crew).places[p] == Done(Hit(saw))
    requires saw.Files? && !saw.whole
    ensures !HitsWholeFiles(s, crew)
  {
    assert !OutcomeWhole(Run(s, trace, crew).places[p].outcome);
  }

  lemma HalfHitLater(s: State, before: Trace, u: Pid, r: Pid, p: Pid, crew: Crew, d: Digest)
    requires Shared(crew, d)
    requires var s1 := Run(s, before, crew);
             && u < |s1.places| && r < |s1.places| && p < |s1.places| && u != r && u != p && r != p
             && s1.places[u].Upgrading? && s1.places[r].Start? && s1.places[p].Start? && s1.disk.lock.None?
             && Says(s1.disk.manifest, d) && FilesFor(s1.disk.schemas, d)
    ensures !HitsWholeFiles(s, crew)
  {
    hide Run;
    var hit := HalfRemovedHit(Run(s, before, crew), u, r, p, crew, d);
    RunAppend(s, before, hit, crew);
    HalfHitRefutes(s, before + hit, p, Files(d, false), crew);
  }

  /** For four or more processes sharing one digest: every hit of every run sees whole files exactly from such a start. */
  lemma HitsWholeFilesIff(manifest: Manifest, schemas: Schemas, n: nat, crew: Crew, d: Digest)
    requires n >= 4 && Shared(crew, d) && (Says(manifest, d) ==> ForDigest(schemas, d))
    ensures HitsWholeFiles(Initial(manifest, schemas, n), crew) <==> WholeStart(manifest, schemas, crew, n, d)
  {
    var s := Initial(manifest, schemas, n);
    if WholeStart(manifest, schemas, crew, n, d) {
      CleanHitsWholeFiles(manifest, schemas, n, crew, d);
    } else if !Says(manifest, d) {
      var p, q, r, t := FourWithDisagreement(crew, n);
      var first := WalkThrough(s, p, crew);
      var s1 := Run(s, first, crew);
      WalkToUpgrading(s1, q, crew);
      RunAppend(s, first, Advances(q, 3), crew);
      HalfHitLater(s, first + Advances(q, 3), q, r, t, crew, d);
    } else if schemas.Missing? {
      MissingFilesHalfHit(manifest, n, crew, d);
    } else if !schemas.whole {
      assert crew(0).digest == d;
      var trace := WalkToAnyHit(s, 0, crew);
      HalfHitRefutes(s, trace, 0, schemas, crew);
    } else {
      var q: Pid :| q < n && Stale(manifest, crew(q));
      var a, b, c := OthersThan(n, q);
      WalkToUpgrading(s, q, crew);
      HalfHitLater(s, Advances(q, 3), q, a, b, crew, d);
    }
  }

  lemma FourWithDisagreement(crew: Crew, n: nat) returns (p: Pid, q: Pid, r: Pid, t: Pid)
    requires n >= 4 && !SameRevisions(crew, n)
    ensures p < n && q < n && r < n && t < n && Stale(Written(crew(p)), crew(q))
    ensures p != q && p != r && p != t && q != r && q != t && r != t
  {
    p, q, r := SomebodyDisagrees(crew, n);
    t := if p != 0 && q != 0 && r != 0 then 0 else if p != 1 && q != 1 && r != 1 then 1
         else if p != 2 && q != 2 && r != 2 then 2 else 3;
  }

  lemma MissingFilesHalfHit(manifest: Manifest, n: nat, crew: Crew, d: Digest)
    requires n >= 4 && Shared(crew, d) && Says(manifest, d)
    ensures !HitsWholeFiles(Initial(manifest, Missing, n), crew)
  {
    var s := Initial(manifest, Missing, n);
    assert crew(0).digest == d && crew(1).digest == d;
    var first := ReaderMeetsRebuild(s, crew);
    var s1 := Run(s, first, crew);
    WalkToRebuilt(s1, 1, crew);
    var s2 := Run(s1, Advances(1, 2), crew);
    OneMove(s2, 0, Advance, crew);
    RunAppend(s1, Advances(1, 2), [(0, Advance)], crew);
    RunAppend(s, first, Advances(1, 2) + [(0, Advance)], crew);
    hide Run, Advances;
    HalfHitLater(s, first + (Advances(1, 2) + [(0, Advance)]), 0, 2, 3, crew, d);
  }

  // ---- The lock ----

  /** A held lock has an owner, who holds it or has vanished with it. */
  ghost predicate LockAccounted(s: State) {
    && (forall p: Pid :: p < |s.places| && Holding(s.places[p]) ==> s.disk.lock == Some(p))
    && (s.disk.lock.Some? ==>
          s.disk.lock.value < |s.places| && (Holding(s.places[s.disk.lock.value]) || s.places[s.disk.lock.value].Crashed?))
  }

  lemma {:induction false} RunKeepsLockAccounted(s: State, trace: Trace, crew: Crew)
    requires LockAccounted(s)
    ensures LockAccounted(Run(s, trace, crew))
    decreases |trace|
  {
    if trace != [] {
      var (p, move) := trace[0];
      RunKeepsLockAccounted(if p < |s.places| then Step(s, p, move, crew) else s, trace[1..], crew);
    }
  }

  /** The lock directory of a process that vanished stays: nobody acquires it, nobody rebuilds, the files stay. */
  lemma {:induction false} AbandonedLockStays(s: State, p: Pid, trace: Trace, crew: Crew)
    requires LockAccounted(s) && s.disk.lock == Some(p) && s.places[p].Crashed?
    ensures var end := Run(s, trace, crew);
            && LockAccounted(end) && end.disk.lock == Some(p) && p < |end.places| && end.places[p].Crashed?
            && end.rebuilds == s.rebuilds && end.disk.schemas == s.disk.schemas
    decreases |trace|
  {
    if trace != [] {
      var (q, move) := trace[0];
      AbandonedLockStays(if q < |s.places| then Step(s, q, move, crew) else s, p, trace[1..], crew);
    }
  }

  /** In every state of every run, a held lock can still be released exactly when its owner has not vanished. */
  lemma LockIsReleasableIff(manifest: Manifest, schemas: Schemas, n: nat, past: Trace, crew: Crew)
    requires Run(Initial(manifest, schemas, n), past, crew).disk.lock.Some?
    ensures var s := Run(Initial(manifest, schemas, n), past, crew);
            && s.disk.lock.value < |s.places|
            && ((exists trace: Trace :: Run(s, trace, crew).disk.lock.None?) <==> !s.places[s.disk.lock.value].Crashed?)
  {
    RunKeepsLockAccounted(Initial(manifest, schemas, n), past, crew);
    var s := Run(Initial(manifest, schemas, n), past, crew);
    var p := s.disk.lock.value;
    if s.places[p].Crashed? {
      forall trace: Trace ensures Run(s, trace, crew).disk.lock.Some? {
        AbandonedLockStays(s, p, trace, crew);
      }
    } else {
      OneMove(s, p, Fail, crew);
      var failed := Run(s, [(p, Fail)], crew);
      OneMove(failed, p, Advance, crew);
      RunAppend(s, [(p, Fail)], [(p, Advance)], crew);
      assert Run(s, [(p, Fail)] + [(p, Advance)], crew).disk.lock.None?;
    }
  }

  // ---- Once the cache is good, everybody who goes on finds it ----

  predicate IsHit(outcome: Outcome) {
    outcome.Hit? || outcome.HitAfterWait? || outcome.HitAfterTimeout?
  }

  /** Nothing read so far speaks against a hit. */
  predicate MayHit(place: Place) {
    match place
    case Start | ReadHash(_) | ReadMetadata(_, _) | Waiting | TimedOut | Locked => true
    case TimedOutRead(seen) => seen
    case LockedRead(seen) => seen
    case Releasing(outcome) => IsHit(outcome)
    case Done(outcome) => IsHit(outcome)
    case _ => false
  }

  predicate GoesOn(move: Move) {
    move.Advance? || move.GiveUp? || move.BuildEmpty? || move.RemoveSome?
  }

  lemma MayHitStep(place: Place, disk: Disk, p: Pid, move: Move, me: Identity)
    requires SettledPlace(place) && MayHit(place) && GoesOn(move)
    requires Says(disk.manifest, me.digest) && !Stale(disk.manifest, me) && FilesFor(disk.schemas, me.digest)
    ensures MayHit(LocalStep(place, disk, p, move, me).place)
  {
  }

  /** With the cache good for all, a process that neither fails nor vanishes can end in nothing but a hit, lock or no lock. */
  lemma {:induction false} SettledEndsInHit(s: State, trace: Trace, p: Pid, crew: Crew, d: Digest)
    requires Shared(crew, d) && Inv(s, d) && Settled(s, crew, d) && p < |s.places| && MayHit(s.places[p])
    requires forall i :: 0 <= i < |trace| && trace[i].0 == p ==> GoesOn(trace[i].1)
    ensures p < |Run(s, trace, crew).places| && MayHit(Run(s, trace, crew).places[p])
    decreases |trace|
  {
    if trace != [] {
      var (q, move) := trace[0];
      var next := if q < |s.places| then Step(s, q, move, crew) else s;
      forall i | 0 <= i < |trace[1..]| && trace[1..][i].0 == p ensures GoesOn(trace[1..][i].1) {
        assert trace[1..][i] == trace[i + 1];
      }
      if q < |s.places| {
        StepKeepsInv(s, q, move, crew, d);
        SettledStep(s, q, move, crew, d);
        if q == p {
          assert crew(p).digest == d;
          MayHitStep(s.places[p], s.disk, p, move, crew(p));
        }
      }
      hide LocalStep, Inv, Settled, MayHit;
      SettledEndsInHit(next, trace[1..], p, crew, d);
    }
  }
}
