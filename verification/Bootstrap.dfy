/**
 * Several processes sharing one schema cache directory: unlocked check, lock, recheck, build, swap, manifest write.
 * Every file operation is a step of its own, and a process may fail or vanish between any two of them.
 */
module Bootstrap {
  import opened Wrappers

  type Digest = nat
  type Pid = nat

  // What a manifest says beside the digest: whether the generation is this program's, and the revisions it holds.
  datatype Revisions = Revisions(generation: bool, catalog: Option<string>, guide: Option<string>)

  // Rewriting the manifest truncates it first, so it may be found unreadable.
  datatype Manifest = Unreadable | Manifest(digest: Digest, revisions: Revisions)

  // What a process was told by its server; a revision the server does not publish is "".
  datatype Identity = Identity(digest: Digest, catalog: string, guide: string)

  // The schema files and what they were built for; whole is lost while the directory is being removed.
  datatype Schemas = Missing | Files(digest: Digest, whole: bool)

  datatype Disk = Disk(manifest: Manifest, schemas: Schemas, lock: Option<Pid>)

  datatype Outcome =
    | Hit(saw: Schemas)
    | HitAfterTimeout(saw: Schemas)
    | HitAfterWait(saw: Schemas)
    | Rebuilt
    | LockTimeout
    | EmptyBundle
    | EmptyCapabilities
    | Raised

  // Where a process stands; seen says that it read a manifest with its own digest.
  datatype Place =
    | Start
    | ReadHash(seen: bool)
    | ReadMetadata(seen: bool, stale: bool)
    | Upgrading(saw: Schemas)
    | UpgradeTruncated(saw: Schemas)
    | Waiting
    | TimedOut
    | TimedOutRead(seen: bool)
    | Locked
    | LockedRead(seen: bool)
    | Building
    | Removing
    | Renaming
    | Renamed
    | Truncated
    | Releasing(outcome: Outcome)
    | Done(outcome: Outcome)
    | Crashed

  datatype Move = Advance | EmptyCatalog | GiveUp | BuildEmpty | RemoveSome | Fail | Crash

  datatype State = State(disk: Disk, places: seq<Place>, rebuilds: nat)

  type Crew = Pid -> Identity

  predicate Holding(place: Place) {
    match place
    case Locked | LockedRead(_) | Building | Removing | Renaming | Renamed | Truncated | Releasing(_) => true
    case _ => false
  }

  predicate Says(manifest: Manifest, digest: Digest) {
    manifest.Manifest? && manifest.digest == digest
  }

  /** The writer leaves an empty revision out. */
  function Stamp(revision: string): Option<string> {
    if revision == "" then None else Some(revision)
  }

  function Written(me: Identity): Manifest {
    Manifest(me.digest, Revisions(true, Stamp(me.catalog), Stamp(me.guide)))
  }

  /** The reader compares what the manifest holds, if anything, with its own revision, even an empty one. */
  predicate Stale(manifest: Manifest, me: Identity) {
    manifest.Unreadable? || manifest.revisions != Revisions(true, Some(me.catalog), Some(me.guide))
  }

  // Where one step leaves the process and the disk, and how many rebuilds it completed.
  datatype Local = Local(place: Place, disk: Disk, rebuilt: nat)

  function Here(place: Place, disk: Disk): Local {
    Local(place, disk, 0)
  }

  /** One step of a process; a move that does not apply where it stands changes nothing. */
  function LocalStep(place: Place, disk: Disk, p: Pid, move: Move, me: Identity): Local {
    if place.Done? || place.Crashed? then Here(place, disk)
    else if move.Crash? then Here(Crashed, disk)
    else if move.Fail? then
      if place.Releasing? then Here(place, disk)
      else Here(if Holding(place) then Releasing(Raised) else Done(Raised), disk)
    else
      match place
      case Start =>
        if move.EmptyCatalog? then Here(Done(EmptyCapabilities), disk)
        else Here(ReadHash(Says(disk.manifest, me.digest)), disk)
      case ReadHash(seen) => Here(ReadMetadata(seen, Stale(disk.manifest, me)), disk)
      case ReadMetadata(seen, stale) =>
        if !(seen && disk.schemas.Files?) then Here(Waiting, disk)
        else if stale then Here(Upgrading(disk.schemas), disk)
        else Here(Done(Hit(disk.schemas)), disk)
      case Upgrading(saw) => Here(UpgradeTruncated(saw), disk.(manifest := Unreadable))
      case UpgradeTruncated(saw) => Here(Done(Hit(saw)), disk.(manifest := Written(me)))
      case Waiting =>
        if disk.lock.None? then Here(Locked, disk.(lock := Some(p)))
        else if move.GiveUp? then Here(TimedOut, disk)
        else Here(place, disk)
      case TimedOut => Here(TimedOutRead(Says(disk.manifest, me.digest)), disk)
      case TimedOutRead(seen) =>
        Here(Done(if seen && disk.schemas.Files? then HitAfterTimeout(disk.schemas) else LockTimeout), disk)
      case Locked => Here(LockedRead(Says(disk.manifest, me.digest)), disk)
      case LockedRead(seen) =>
        Here(if seen && disk.schemas.Files? then Releasing(HitAfterWait(disk.schemas)) else Building, disk)
      case Building => Here(if move.BuildEmpty? then Releasing(EmptyBundle) else Removing, disk)
      case Removing =>
        if move.RemoveSome? && disk.schemas.Files?
        then Here(Removing, disk.(schemas := Files(disk.schemas.digest, false)))
        else Here(Renaming, disk.(schemas := Missing))
      case Renaming => Here(Renamed, disk.(schemas := Files(me.digest, true)))
      case Renamed => Here(Truncated, disk.(manifest := Unreadable))
      case Truncated => Here(Releasing(Rebuilt), disk.(manifest := Written(me))).(rebuilt := 1)
      case Releasing(outcome) => Here(Done(outcome), disk.(lock := None))
  }

  function Step(s: State, p: Pid, move: Move, crew: Crew): State
    requires p < |s.places|
  {
    var next := LocalStep(s.places[p], s.disk, p, move, crew(p));
    State(next.disk, s.places[p := next.place], s.rebuilds + next.rebuilt)
  }

  type Trace = seq<(Pid, Move)>

  function Run(s: State, trace: Trace, crew: Crew): State
    decreases |trace|
  {
    if trace == [] then s
    else
      var (p, move) := trace[0];
      Run(if p < |s.places| then Step(s, p, move, crew) else s, trace[1..], crew)
  }

  function Initial(manifest: Manifest, schemas: Schemas, n: nat): State {
    State(Disk(manifest, schemas, None), seq(n, i => Start), 0)
  }

  ghost predicate Shared(crew: Crew, d: Digest) {
    forall p: Pid :: crew(p).digest == d
  }

  // ---- Safety for one shared digest ----

  predicate ForDigest(schemas: Schemas, d: Digest) {
    schemas.Missing? || schemas.digest == d
  }

  predicate FilesFor(schemas: Schemas, d: Digest) {
    schemas.Files? && schemas.digest == d
  }

  /** The process relies on a manifest it has read. */
  predicate Trusting(place: Place) {
    match place
    case ReadHash(seen) => seen
    case ReadMetadata(seen, _) => seen
    case TimedOutRead(seen) => seen
    case LockedRead(seen) => seen
    case Upgrading(_) | UpgradeTruncated(_) | Renamed | Truncated => true
    case _ => false
  }

  predicate OutcomeOk(outcome: Outcome, d: Digest) {
    match outcome
    case Hit(saw) => FilesFor(saw, d)
    case HitAfterTimeout(saw) => FilesFor(saw, d)
    case HitAfterWait(saw) => FilesFor(saw, d)
    case _ => true
  }

  predicate SawOk(place: Place, d: Digest) {
    match place
    case Upgrading(saw) => FilesFor(saw, d)
    case UpgradeTruncated(saw) => FilesFor(saw, d)
    case Releasing(outcome) => OutcomeOk(outcome, d)
    case Done(outcome) => OutcomeOk(outcome, d)
    case _ => true
  }

  predicate PlaceOk(place: Place, p: Pid, disk: Disk, d: Digest) {
    && (Holding(place) ==> disk.lock == Some(p))
    && (Trusting(place) ==> ForDigest(disk.schemas, d))
    && (place.Renamed? || place.Truncated? ==> disk.schemas == Files(d, true))
    && SawOk(place, d)
  }

  ghost predicate Inv(s: State, d: Digest) {
    && (Says(s.disk.manifest, d) ==> ForDigest(s.disk.schemas, d))
    && forall p: Pid :: p < |s.places| ==> PlaceOk(s.places[p], p, s.disk, d)
  }

  lemma StepKeepsOwnPlace(place: Place, disk: Disk, p: Pid, move: Move, me: Identity)
    requires PlaceOk(place, p, disk, me.digest) && (Says(disk.manifest, me.digest) ==> ForDigest(disk.schemas, me.digest))
    ensures var next := LocalStep(place, disk, p, move, me);
            && PlaceOk(next.place, p, next.disk, me.digest)
            && (Says(next.disk.manifest, me.digest) ==> ForDigest(next.disk.schemas, me.digest))
            && (ForDigest(disk.schemas, me.digest) ==> ForDigest(next.disk.schemas, me.digest))
            && (next.disk.lock == disk.lock || disk.lock == None || disk.lock == Some(p))
            && (next.disk.schemas == disk.schemas || Holding(place))
  {
  }

  lemma StepKeepsInv(s: State, p: Pid, move: Move, crew: Crew, d: Digest)
    requires Shared(crew, d) && Inv(s, d) && p < |s.places|
    ensures Inv(Step(s, p, move, crew), d)
  {
    var next := Step(s, p, move, crew);
    assert crew(p).digest == d;
    StepKeepsOwnPlace(s.places[p], s.disk, p, move, crew(p));
    hide LocalStep;
    forall q: Pid | q < |next.places| ensures PlaceOk(next.places[q], q, next.disk, d) {
      assert PlaceOk(s.places[q], q, s.disk, d);
    }
  }

  lemma {:induction false} RunKeepsInv(s: State, trace: Trace, crew: Crew, d: Digest)
    requires Shared(crew, d) && Inv(s, d)
    ensures Inv(Run(s, trace, crew), d)
    decreases |trace|
  {
    if trace != [] {
      var (p, move) := trace[0];
      if p < |s.places| {
        StepKeepsInv(s, p, move, crew, d);
      }
      RunKeepsInv(if p < |s.places| then Step(s, p, move, crew) else s, trace[1..], crew, d);
    }
  }

  /** At most one process is between acquiring and releasing, and every hit saw files built for the digest. */
  lemma BootstrapIsSafe(manifest: Manifest, schemas: Schemas, n: nat, trace: Trace, crew: Crew, d: Digest)
    requires Shared(crew, d) && (Says(manifest, d) ==> ForDigest(schemas, d))
    ensures var s := Run(Initial(manifest, schemas, n), trace, crew);
            && (forall p, q :: 0 <= p < |s.places| && 0 <= q < |s.places| && Holding(s.places[p]) && Holding(s.places[q]) ==> p == q)
            && (forall p :: 0 <= p < |s.places| && s.places[p].Done? ==> OutcomeOk(s.places[p].outcome, d))
            && (Says(s.disk.manifest, d) ==> ForDigest(s.disk.schemas, d))
  {
    var s := Run(Initial(manifest, schemas, n), trace, crew);
    RunKeepsInv(Initial(manifest, schemas, n), trace, crew, d);
    forall p | 0 <= p < |s.places| ensures PlaceOk(s.places[p], p, s.disk, d) {
    }
  }

  // ---- How often a rebuild succeeds ----

  /** All processes were told the same revisions, and their server publishes both. */
  predicate SameRevisions(crew: Crew, n: nat) {
    forall p: Pid, q: Pid :: p < n && q < n ==>
      crew(p).catalog == crew(q).catalog != "" && crew(p).guide == crew(q).guide != ""
  }

  predicate CurrentForAll(manifest: Manifest, crew: Crew, n: nat) {
    forall p: Pid :: p < n ==> !Stale(manifest, crew(p))
  }

  /** A manifest with the digest suits everybody and has files beside it; without one, what any process writes will. */
  predicate CleanStart(manifest: Manifest, schemas: Schemas, crew: Crew, n: nat, d: Digest) {
    if Says(manifest, d) then FilesFor(schemas, d) && CurrentForAll(manifest, crew, n) else SameRevisions(crew, n)
  }

  /** Before the rebuild: nobody has seen the digest. After it: everybody who looks finds the cache good. */
  predicate PendingPlace(place: Place) {
    match place
    case ReadHash(seen) => !seen
    case ReadMetadata(seen, _) => !seen
    case TimedOutRead(seen) => !seen
    case LockedRead(seen) => !seen
    case Upgrading(_) | UpgradeTruncated(_) => false
    case _ => true
  }

  predicate SettledPlace(place: Place) {
    match place
    case ReadMetadata(seen, stale) => seen ==> !stale
    case LockedRead(seen) => seen
    case Upgrading(_) | UpgradeTruncated(_) | Building | Removing | Renaming | Renamed | Truncated => false
    case _ => true
  }

  ghost predicate Pending(s: State, crew: Crew, d: Digest) {
    && SameRevisions(crew, |s.places|)
    && s.rebuilds == 0 && !Says(s.disk.manifest, d)
    && forall p: Pid :: p < |s.places| ==> PendingPlace(s.places[p])
  }

  ghost predicate Settled(s: State, crew: Crew, d: Digest) {
    && s.rebuilds <= 1 && Says(s.disk.manifest, d) && FilesFor(s.disk.schemas, d)
    && CurrentForAll(s.disk.manifest, crew, |s.places|)
    && forall p: Pid :: p < |s.places| ==> SettledPlace(s.places[p])
  }

  lemma PendingStep(s: State, p: Pid, move: Move, crew: Crew, d: Digest)
    requires Shared(crew, d) && Inv(s, d) && Pending(s, crew, d) && p < |s.places|
    ensures var next := Step(s, p, move, crew); Pending(next, crew, d) || Settled(next, crew, d)
  {
    var next := Step(s, p, move, crew);
    assert crew(p).digest == d;
    assert PlaceOk(s.places[p], p, s.disk, d);
    forall q: Pid | q < |s.places| && q != p
      ensures next.places[q] == s.places[q] && PendingPlace(s.places[q])
      ensures Holding(s.places[p]) ==> !Holding(s.places[q])
    {
      assert PlaceOk(s.places[q], q, s.disk, d);
    }
  }

  lemma SettledStep(s: State, p: Pid, move: Move, crew: Crew, d: Digest)
    requires Shared(crew, d) && Settled(s, crew, d) && p < |s.places|
    ensures Settled(Step(s, p, move, crew), crew, d)
  {
    assert crew(p).digest == d && SettledPlace(s.places[p]);
  }

  lemma {:induction false} CleanRunRebuildsOnce(s: State, trace: Trace, crew: Crew, d: Digest)
    requires Shared(crew, d) && Inv(s, d) && (Pending(s, crew, d) || Settled(s, crew, d))
    ensures Run(s, trace, crew).rebuilds <= 1
    decreases |trace|
  {
    if trace != [] {
      var (p, move) := trace[0];
      if p < |s.places| {
        StepKeepsInv(s, p, move, crew, d);
        if Pending(s, crew, d) {
          PendingStep(s, p, move, crew, d);
        } else {
          SettledStep(s, p, move, crew, d);
        }
      }
      CleanRunRebuildsOnce(if p < |s.places| then Step(s, p, move, crew) else s, trace[1..], crew, d);
    }
  }

  // ---- The runs that rebuild twice ----

  lemma {:induction false} RunAppend(s: State, a: Trace, b: Trace, crew: Crew)
    ensures Run(s, a + b, crew) == Run(Run(s, a, crew), b, crew)
    decreases |a|
  {
    if a == [] {
      assert a + b == b;
    } else {
      var (p, move) := a[0];
      RunAppend(if p < |s.places| then Step(s, p, move, crew) else s, a[1..], b, crew);
      assert (a + b)[0] == a[0] && (a + b)[1..] == a[1..] + b;
    }
  }

  function Advances(p: Pid, n: nat): Trace {
    if n == 0 then [] else [(p, Advance)] + Advances(p, n - 1)
  }

  /** The state with process p at a place; the other processes are where they were. */
  function At(s: State, p: Pid, place: Place, disk: Disk, rebuilds: nat): State
    requires p < |s.places|
  {
    State(disk, s.places[p := place], rebuilds)
  }

  lemma AdvanceOnce(s: State, p: Pid, at: Local, n: nat, crew: Crew)
    requires n > 0 && p < |s.places|
    ensures var next := LocalStep(at.place, at.disk, p, Advance, crew(p));
            Run(At(s, p, at.place, at.disk, at.rebuilt), Advances(p, n), crew)
            == Run(At(s, p, next.place, next.disk, at.rebuilt + next.rebuilt), Advances(p, n - 1), crew)
  {
    hide LocalStep;
    var next := LocalStep(at.place, at.disk, p, Advance, crew(p));
    assert Advances(p, n)[1..] == Advances(p, n - 1);
    assert s.places[p := at.place][p := next.place] == s.places[p := next.place];
  }

  lemma OneMove(s: State, p: Pid, move: Move, crew: Crew)
    requires p < |s.places|
    ensures Run(s, [(p, move)], crew) == Step(s, p, move, crew)
  {
    hide Step;
    assert [(p, move)][1..] == [];
  }

  lemma NoAdvance(s: State, p: Pid, crew: Crew)
    ensures Run(s, Advances(p, 0), crew) == s
  {
  }

  lemma AlreadyAt(s: State, p: Pid)
    requires p < |s.places|
    ensures At(s, p, s.places[p], s.disk, s.rebuilds) == s
  {
  }

  /** A process that finds the manifest unusable and the lock free comes to hold the lock. */
  lemma WalkToLocked(s: State, p: Pid, crew: Crew)
    requires p < |s.places| && s.places[p].Start? && s.disk.lock.None?
    requires !Says(s.disk.manifest, crew(p).digest) || s.disk.schemas.Missing?
    ensures Run(s, Advances(p, 6), crew)
         == Run(At(s, p, Locked, s.disk.(lock := Some(p)), s.rebuilds), Advances(p, 2), crew)
  {
    hide Run, Advances, At;
    var disk, n, seen := s.disk, s.rebuilds, Says(s.disk.manifest, crew(p).digest);
    AlreadyAt(s, p);
    AdvanceOnce(s, p, Local(Start, disk, n), 6, crew);
    AdvanceOnce(s, p, Local(ReadHash(seen), disk, n), 5, crew);
    AdvanceOnce(s, p, Local(ReadMetadata(seen, Stale(disk.manifest, crew(p))), disk, n), 4, crew);
    AdvanceOnce(s, p, Local(Waiting, disk, n), 3, crew);
  }

  /** And finds it unusable again under the lock. */
  lemma WalkToBuilding(s: State, p: Pid, crew: Crew)
    requires p < |s.places| && s.places[p].Start? && s.disk.lock.None?
    requires !Says(s.disk.manifest, crew(p).digest) || s.disk.schemas.Missing?
    ensures Run(s, Advances(p, 6), crew) == At(s, p, Building, s.disk.(lock := Some(p)), s.rebuilds)
  {
    hide Run, Advances, At;
    WalkToLocked(s, p, crew);
    var disk, n := s.disk.(lock := Some(p)), s.rebuilds;
    AdvanceOnce(s, p, Local(Locked, disk, n), 2, crew);
    AdvanceOnce(s, p, Local(LockedRead(Says(disk.manifest, crew(p).digest)), disk, n), 1, crew);
    NoAdvance(At(s, p, Building, disk, n), p, crew);
  }

  /** From building to the swapped files. */
  lemma WalkToRenamed(s: State, p: Pid, crew: Crew)
    requires p < |s.places| && s.places[p].Building?
    ensures Run(s, Advances(p, 3), crew) == At(s, p, Renamed, s.disk.(schemas := Files(crew(p).digest, true)), s.rebuilds)
  {
    hide Run, Advances, At;
    var disk, n := s.disk, s.rebuilds;
    AlreadyAt(s, p);
    AdvanceOnce(s, p, Local(Building, disk, n), 3, crew);
    AdvanceOnce(s, p, Local(Removing, disk, n), 2, crew);
    AdvanceOnce(s, p, Local(Renaming, disk.(schemas := Missing), n), 1, crew);
    NoAdvance(At(s, p, Renamed, disk.(schemas := Files(crew(p).digest, true)), n), p, crew);
  }

  /** From the swapped files to the truncated manifest. */
  lemma WalkToTruncated(s: State, p: Pid, crew: Crew)
    requires p < |s.places| && s.places[p].Renamed?
    ensures Run(s, Advances(p, 1), crew) == At(s, p, Truncated, s.disk.(manifest := Unreadable), s.rebuilds)
  {
    hide Run, Advances, At;
    AlreadyAt(s, p);
    AdvanceOnce(s, p, Local(Renamed, s.disk, s.rebuilds), 1, crew);
    NoAdvance(At(s, p, Truncated, s.disk.(manifest := Unreadable), s.rebuilds), p, crew);
  }

  /** And on to the written manifest and the released lock. */
  lemma WalkToRebuilt(s: State, p: Pid, crew: Crew)
    requires p < |s.places| && s.places[p].Truncated?
    ensures Run(s, Advances(p, 2), crew)
         == At(s, p, Done(Rebuilt), s.disk.(manifest := Written(crew(p)), lock := None), s.rebuilds + 1)
  {
    hide Run, Advances, At;
    var disk, n := s.disk.(manifest := Written(crew(p))), s.rebuilds + 1;
    AlreadyAt(s, p);
    AdvanceOnce(s, p, Local(Truncated, s.disk, s.rebuilds), 2, crew);
    AdvanceOnce(s, p, Local(Releasing(Rebuilt), disk, n), 1, crew);
    NoAdvance(At(s, p, Done(Rebuilt), disk.(lock := None), n), p, crew);
  }

  /** Alone with an unusable manifest or no files, a process gets to writing the manifest. */
  lemma WalkToWriting(s: State, p: Pid, crew: Crew) returns (trace: Trace)
    requires p < |s.places| && s.places[p].Start? && s.disk.lock.None?
    requires !Says(s.disk.manifest, crew(p).digest) || s.disk.schemas.Missing?
    ensures Run(s, trace, crew) == At(s, p, Truncated, Disk(Unreadable, Files(crew(p).digest, true), Some(p)), s.rebuilds)
  {
    WalkToBuilding(s, p, crew);
    var s1 := Run(s, Advances(p, 6), crew);
    WalkToRenamed(s1, p, crew);
    var s2 := Run(s1, Advances(p, 3), crew);
    WalkToTruncated(s2, p, crew);
    RunAppend(s1, Advances(p, 3), Advances(p, 1), crew);
    RunAppend(s, Advances(p, 6), Advances(p, 3) + Advances(p, 1), crew);
    trace := Advances(p, 6) + (Advances(p, 3) + Advances(p, 1));
    hide Run, Advances;
  }

  /** And so rebuilds. */
  lemma WalkThrough(s: State, p: Pid, crew: Crew) returns (trace: Trace)
    requires p < |s.places| && s.places[p].Start? && s.disk.lock.None?
    requires !Says(s.disk.manifest, crew(p).digest) || s.disk.schemas.Missing?
    ensures var end := Run(s, trace, crew);
            && end.rebuilds == s.rebuilds + 1 && end.disk == Disk(Written(crew(p)), Files(crew(p).digest, true), None)
            && |end.places| == |s.places| && forall q: Pid :: q < |s.places| && q != p ==> end.places[q] == s.places[q]
  {
    var writing := WalkToWriting(s, p, crew);
    WalkToRebuilt(Run(s, writing, crew), p, crew);
    RunAppend(s, writing, Advances(p, 2), crew);
    trace := writing + Advances(p, 2);
    hide Run, Advances;
  }

  /** A process about to upgrade a good manifest truncates it; another one then finds it unusable and rebuilds. */
  lemma UpgradeInvitesRebuild(s: State, upgrader: Pid, p: Pid, crew: Crew) returns (trace: Trace)
    requires upgrader < |s.places| && p < |s.places| && upgrader != p
    requires s.places[upgrader].Upgrading? && s.places[p].Start? && s.disk.lock.None?
    ensures var end := Run(s, trace, crew);
            && end.rebuilds == s.rebuilds + 1 && end.disk.lock.None? && |end.places| == |s.places|
            && forall q: Pid :: q < |s.places| && q != upgrader && q != p ==> end.places[q] == s.places[q]
  {
    var saw := s.places[upgrader].saw;
    var truncated := At(s, upgrader, UpgradeTruncated(saw), s.disk.(manifest := Unreadable), s.rebuilds);
    AlreadyAt(s, upgrader);
    AdvanceOnce(s, upgrader, Local(Upgrading(saw), s.disk, s.rebuilds), 1, crew);
    NoAdvance(truncated, upgrader, crew);
    var rest := WalkThrough(truncated, p, crew);
    RunAppend(s, Advances(upgrader, 1), rest, crew);
    trace := Advances(upgrader, 1) + rest;
    hide Run, Advances;
  }

  ghost predicate RebuildsAtMostOnce(s: State, crew: Crew) {
    forall trace: Trace :: Run(s, trace, crew).rebuilds <= 1
  }

  lemma WalkToUpgrading(s: State, p: Pid, crew: Crew)
    requires p < |s.places| && s.places[p].Start?
    requires Says(s.disk.manifest, crew(p).digest) && Stale(s.disk.manifest, crew(p)) && s.disk.schemas.Files?
    ensures Run(s, Advances(p, 3), crew) == At(s, p, Upgrading(s.disk.schemas), s.disk, s.rebuilds)
  {
    hide Run, Advances, At;
    var disk, n := s.disk, s.rebuilds;
    AlreadyAt(s, p);
    AdvanceOnce(s, p, Local(Start, disk, n), 3, crew);
    AdvanceOnce(s, p, Local(ReadHash(true), disk, n), 2, crew);
    AdvanceOnce(s, p, Local(ReadMetadata(true, true), disk, n), 1, crew);
    NoAdvance(At(s, p, Upgrading(disk.schemas), disk, n), p, crew);
  }

  /** Two processes both mean to upgrade the same old manifest. */
  lemma OldManifestRebuildsTwice(s: State, q: Pid, q': Pid, p: Pid, p': Pid, crew: Crew, d: Digest)
    requires AllStarting(s) && Shared(crew, d) && Says(s.disk.manifest, d) && FilesFor(s.disk.schemas, d)
    requires Different(s, q, q', p, p')
    requires Stale(s.disk.manifest, crew(q)) && Stale(s.disk.manifest, crew(q'))
    ensures !RebuildsAtMostOnce(s, crew)
  {
    WalkToUpgrading(s, q, crew);
    var s1 := Run(s, Advances(q, 3), crew);
    WalkToUpgrading(s1, q', crew);
    var s2 := Run(s1, Advances(q', 3), crew);
    hide Run, Advances;
    var first := UpgradeInvitesRebuild(s2, q, p, crew);
    var s3 := Run(s2, first, crew);
    var second := UpgradeInvitesRebuild(s3, q', p', crew);
    RunAppend(s2, first, second, crew);
    RunAppend(s1, Advances(q', 3), first + second, crew);
    RunAppend(s, Advances(q, 3), Advances(q', 3) + (first + second), crew);
    assert Run(s, Advances(q, 3) + (Advances(q', 3) + (first + second)), crew).rebuilds == 2;
  }

  ghost predicate AllStarting(s: State) {
    s.rebuilds == 0 && s.disk.lock.None? && forall p: Pid :: p < |s.places| ==> s.places[p].Start?
  }

  predicate Different(s: State, a: Pid, b: Pid, c: Pid, e: Pid) {
    && a < |s.places| && b < |s.places| && c < |s.places| && e < |s.places|
    && a != b && a != c && a != e && b != c && b != e && c != e
  }

  /** From an unlocked upgrade through the rebuild it invites to the upgrader's own manifest. */
  lemma UpgradeAroundRebuild(s: State, q: Pid, p: Pid, crew: Crew) returns (trace: Trace)
    requires q < |s.places| && p < |s.places| && q != p && s.places[q].Start? && s.places[p].Start? && s.disk.lock.None?
    requires Says(s.disk.manifest, crew(q).digest) && Stale(s.disk.manifest, crew(q)) && s.disk.schemas.Files?
    ensures var end := Run(s, trace, crew);
            && end.rebuilds == s.rebuilds + 1 && end.disk == Disk(Written(crew(q)), Files(crew(p).digest, true), None)
            && |end.places| == |s.places| && forall r: Pid :: r < |s.places| && r != q && r != p ==> end.places[r] == s.places[r]
  {
    WalkToUpgrading(s, q, crew);
    var s1 := Run(s, Advances(q, 3), crew);
    AlreadyAt(s1, q);
    AdvanceOnce(s1, q, Local(s1.places[q], s1.disk, s1.rebuilds), 1, crew);
    var saw := s1.places[q].saw;
    var s2 := At(s1, q, UpgradeTruncated(saw), s1.disk.(manifest := Unreadable), s1.rebuilds);
    NoAdvance(s2, q, crew);
    var rebuild := WalkThrough(s2, p, crew);
    var s3 := Run(s2, rebuild, crew);
    AlreadyAt(s3, q);
    AdvanceOnce(s3, q, Local(UpgradeTruncated(saw), s3.disk, s3.rebuilds), 1, crew);
    NoAdvance(At(s3, q, Done(Hit(saw)), s3.disk.(manifest := Written(crew(q))), s3.rebuilds), q, crew);
    RunAppend(s2, rebuild, Advances(q, 1), crew);
    RunAppend(s1, Advances(q, 1), rebuild + Advances(q, 1), crew);
    RunAppend(s, Advances(q, 3), Advances(q, 1) + (rebuild + Advances(q, 1)), crew);
    trace := Advances(q, 3) + (Advances(q, 1) + (rebuild + Advances(q, 1)));
    hide Run, Advances;
  }

  /** The manifest suits everybody but one process, whose upgrade then suits nobody else. */
  lemma OddOneRebuildsTwice(s: State, q: Pid, q': Pid, p: Pid, p': Pid, crew: Crew, d: Digest)
    requires AllStarting(s) && Shared(crew, d) && Says(s.disk.manifest, d) && FilesFor(s.disk.schemas, d)
    requires Different(s, q, q', p, p')
    requires Stale(s.disk.manifest, crew(q)) && !Stale(s.disk.manifest, crew(q'))
    ensures !RebuildsAtMostOnce(s, crew)
  {
    var first := UpgradeAroundRebuild(s, q, p, crew);
    var s1 := Run(s, first, crew);
    assert Stale(Written(crew(q)), crew(q'));
    WalkToUpgrading(s1, q', crew);
    var s2 := Run(s1, Advances(q', 3), crew);
    hide Run, Advances;
    var second := UpgradeInvitesRebuild(s2, q', p', crew);
    RunAppend(s1, Advances(q', 3), second, crew);
    RunAppend(s, first, Advances(q', 3) + second, crew);
    assert Run(s, first + (Advances(q', 3) + second), crew).rebuilds == 2;
  }

  /** What the first rebuild writes is old at once for somebody else, whose upgrade invites a second one. */
  lemma DisagreementRebuildsTwice(s: State, p: Pid, q: Pid, r: Pid, crew: Crew, d: Digest)
    requires AllStarting(s) && Shared(crew, d) && !Says(s.disk.manifest, d)
    requires p < |s.places| && q < |s.places| && r < |s.places| && p != q && p != r && q != r
    requires Stale(Written(crew(p)), crew(q))
    ensures !RebuildsAtMostOnce(s, crew)
  {
    var first := WalkThrough(s, p, crew);
    var s1 := Run(s, first, crew);
    WalkToUpgrading(s1, q, crew);
    var s2 := Run(s1, Advances(q, 3), crew);
    hide Run, Advances;
    var second := UpgradeInvitesRebuild(s2, q, r, crew);
    RunAppend(s1, Advances(q, 3), second, crew);
    RunAppend(s, first, Advances(q, 3) + second, crew);
    assert Run(s, first + (Advances(q, 3) + second), crew).rebuilds == 2;
  }

  /** A server that publishes no guide revision: an empty directory is rebuilt twice. */
  lemma UnpublishedRevisionRebuildsTwice(crew: Crew, d: Digest, n: nat)
    requires n >= 3 && Shared(crew, d) && crew(0).guide == ""
    ensures !RebuildsAtMostOnce(Initial(Unreadable, Missing, n), crew)
  {
    DisagreementRebuildsTwice(Initial(Unreadable, Missing, n), 0, 1, 2, crew, d);
  }

  /** One process reads the digest, then the manifest while a rebuild has it truncated, and means to upgrade it. */
  lemma ReaderMeetsRebuild(s: State, crew: Crew) returns (trace: Trace)
    requires |s.places| >= 2 && s.places[0].Start? && s.places[1].Start? && s.disk.lock.None?
    requires Says(s.disk.manifest, crew(0).digest) && crew(1).digest == crew(0).digest && s.disk.schemas.Missing?
    ensures var end := Run(s, trace, crew);
            && end.places == s.places[0 := ReadMetadata(true, true)][1 := Truncated]
            && end.disk == Disk(Unreadable, Files(crew(0).digest, true), Some(1)) && end.rebuilds == s.rebuilds
  {
    AlreadyAt(s, 0);
    AdvanceOnce(s, 0, Local(Start, s.disk, s.rebuilds), 1, crew);
    var s1 := At(s, 0, ReadHash(true), s.disk, s.rebuilds);
    NoAdvance(s1, 0, crew);
    hide Run, Advances;
    var writing := WalkToWriting(s1, 1, crew);
    var s2 := Run(s1, writing, crew);
    AlreadyAt(s2, 0);
    AdvanceOnce(s2, 0, Local(ReadHash(true), s2.disk, s2.rebuilds), 1, crew);
    NoAdvance(At(s2, 0, ReadMetadata(true, true), s2.disk, s2.rebuilds), 0, crew);
    RunAppend(s1, writing, Advances(0, 1), crew);
    RunAppend(s, Advances(0, 1), writing + Advances(0, 1), crew);
    trace := Advances(0, 1) + (writing + Advances(0, 1));
  }

  /** After that rebuild the reader finds the files, upgrades, and so invites a second one. */
  lemma NoFilesRebuildsTwice(manifest: Manifest, n: nat, crew: Crew, d: Digest)
    requires n >= 3 && Shared(crew, d) && Says(manifest, d)
    ensures !RebuildsAtMostOnce(Initial(manifest, Missing, n), crew)
  {
    var s := Initial(manifest, Missing, n);
    assert crew(0).digest == d && crew(1).digest == d;
    var first := ReaderMeetsRebuild(s, crew);
    var s1 := Run(s, first, crew);
    WalkToRebuilt(s1, 1, crew);
    var s2 := Run(s1, Advances(1, 2), crew);
    AlreadyAt(s2, 0);
    AdvanceOnce(s2, 0, Local(ReadMetadata(true, true), s2.disk, s2.rebuilds), 1, crew);
    var s3 := At(s2, 0, Upgrading(s2.disk.schemas), s2.disk, s2.rebuilds);
    NoAdvance(s3, 0, crew);
    hide Run, Advances;
    var second := UpgradeInvitesRebuild(s3, 0, 2, crew);
    RunAppend(s2, Advances(0, 1), second, crew);
    RunAppend(s1, Advances(1, 2), Advances(0, 1) + second, crew);
    RunAppend(s, first, Advances(1, 2) + (Advances(0, 1) + second), crew);
    assert Run(s, first + (Advances(1, 2) + (Advances(0, 1) + second)), crew).rebuilds == 2;
  }

  /** Two processes of which one writes what is old for the other, and a third one. */
  lemma SomebodyDisagrees(crew: Crew, n: nat) returns (p: Pid, q: Pid, r: Pid)
    requires n >= 3 && !SameRevisions(crew, n)
    ensures p < n && q < n && r < n && p != q && p != r && q != r && Stale(Written(crew(p)), crew(q))
  {
    p, q :| p < n && q < n && !(crew(p).catalog == crew(q).catalog != "" && crew(p).guide == crew(q).guide != "");
    if p == q {
      q := if p == 0 then 1 else 0;
    }
    r := if p != 0 && q != 0 then 0 else if p != 1 && q != 1 then 1 else 2;
  }

  lemma OthersThan(n: nat, q: Pid) returns (a: Pid, b: Pid, c: Pid)
    requires n >= 4 && q < n
    ensures a < n && b < n && c < n && q != a && q != b && q != c && a != b && a != c && b != c
  {
    a := if q == 0 then 1 else 0;
    b := if q <= 1 then 2 else 1;
    c := if q <= 2 then 3 else 2;
  }

  // ---- One process with the directory to itself ----

  /** With a good manifest and files beside it, the unlocked check is three steps. */
  lemma WalkToHit(s: State, p: Pid, crew: Crew)
    requires p < |s.places| && s.places[p].Start?
    requires Says(s.disk.manifest, crew(p).digest) && !Stale(s.disk.manifest, crew(p)) && s.disk.schemas.Files?
    ensures Run(s, Advances(p, 3), crew) == At(s, p, Done(Hit(s.disk.schemas)), s.disk, s.rebuilds)
  {
    hide Run, Advances, At;
    var disk, n := s.disk, s.rebuilds;
    AlreadyAt(s, p);
    AdvanceOnce(s, p, Local(Start, disk, n), 3, crew);
    AdvanceOnce(s, p, Local(ReadHash(true), disk, n), 2, crew);
    AdvanceOnce(s, p, Local(ReadMetadata(true, false), disk, n), 1, crew);
    NoAdvance(At(s, p, Done(Hit(disk.schemas)), disk, n), p, crew);
  }

  // What the server gives a process: nothing to describe, a full bundle, an empty one, or an error while loading it.
  datatype Answers = NoCapabilities | AllSchemas | NoSchemas | Breaks

  class CacheDirectory {
    var disk: Disk

    constructor (disk: Disk)
      ensures this.disk == disk
    {
      this.disk := disk;
    }

    /** Polls for the lock; with nobody else running, a lock that is taken stays taken. */
    method Acquire(p: Pid, polls: nat) returns (acquired: bool)
      modifies this
      ensures acquired <==> old(disk).lock.None?
      ensures disk == if acquired then old(disk).(lock := Some(p)) else old(disk)
    {
      for i := 0 to polls
        invariant disk == old(disk) && (i > 0 ==> disk.lock.Some?)
      {
        if disk.lock.None? {
          disk := disk.(lock := Some(p));
          return true;
        }
      }
      acquired := disk.lock.None?;
      if acquired {
        disk := disk.(lock := Some(p));
      }
    }

    method Rebuild(me: Identity)
      modifies this
      ensures disk == old(disk).(manifest := Written(me), schemas := Files(me.digest, true))
    {
      if disk.schemas.Files? {
        disk := disk.(schemas := Missing);
      }
      disk := disk.(schemas := Files(me.digest, true));
      disk := disk.(manifest := Written(me));
    }

    /** Check, lock, recheck, build, swap, write, release. */
    method BootstrapSchemaCache(p: Pid, me: Identity, server: Answers, polls: nat) returns (outcome: Outcome)
      modifies this
      ensures Ending(disk, outcome) == Alone(old(disk), me, server)
      ensures var before := old(disk);
        var usable := before.manifest.Manifest? && before.manifest.digest == me.digest && before.schemas.Files?;
        var current := Manifest(me.digest, Revisions(true, Some(me.catalog), Some(me.guide)));
        var written := Manifest(me.digest, Revisions(true, if me.catalog == "" then None else Some(me.catalog),
                                                           if me.guide == "" then None else Some(me.guide)));
        if server.NoCapabilities? then outcome == EmptyCapabilities && disk == before
        else if usable then
          && outcome == Hit(before.schemas) && disk.schemas == before.schemas && disk.lock == before.lock
          && disk.manifest == if before.manifest == current then before.manifest else written
        else if before.lock.Some? then outcome == LockTimeout && disk == before
        else if server.NoSchemas? then outcome == EmptyBundle && disk == before
        else if server.Breaks? then outcome == Raised && disk == before
        else outcome == Rebuilt && disk == Disk(written, Files(me.digest, true), None)
    {
      if server.NoCapabilities? {
        return EmptyCapabilities;
      }
      var seen := Says(disk.manifest, me.digest);
      if seen && disk.schemas.Files? {
        if Stale(disk.manifest, me) {
          disk := disk.(manifest := Written(me));
        }
        return Hit(disk.schemas);
      }
      var acquired := Acquire(p, polls);
      seen := Says(disk.manifest, me.digest);
      if !acquired {
        return if seen && disk.schemas.Files? then HitAfterTimeout(disk.schemas) else LockTimeout;
      }
      if seen && disk.schemas.Files? {
        outcome := HitAfterWait(disk.schemas);
      } else if server.NoSchemas? {
        outcome := EmptyBundle;
      } else if server.Breaks? {
        outcome := Raised;
      } else {
        Rebuild(me);
        outcome := Rebuilt;
      }
      disk := disk.(lock := None);
    }
  }

  datatype Ending = Ending(disk: Disk, outcome: Outcome)

  /** A usable cache is kept, an unusable one replaced; no capabilities, a taken lock or no bundle change nothing. */
  function Alone(disk: Disk, me: Identity, server: Answers): Ending {
    if server.NoCapabilities? then Ending(disk, EmptyCapabilities)
    else if Says(disk.manifest, me.digest) && disk.schemas.Files?
    then Ending(if Stale(disk.manifest, me) then disk.(manifest := Written(me)) else disk, Hit(disk.schemas))
    else if disk.lock.Some? then Ending(disk, LockTimeout)
    else if server.NoSchemas? then Ending(disk, EmptyBundle)
    else if server.Breaks? then Ending(disk, Raised)
    else Ending(Disk(Written(me), Files(me.digest, true), None), Rebuilt)
  }

  lemma UpgradeAlone(s: State, p: Pid, crew: Crew)
    requires p < |s.places| && s.places[p].Upgrading?
    ensures Run(s, Advances(p, 2), crew)
         == At(s, p, Done(Hit(s.places[p].saw)), s.disk.(manifest := Written(crew(p))), s.rebuilds)
  {
    hide Run, Advances, At;
    var saw, disk, n := s.places[p].saw, s.disk, s.rebuilds;
    AlreadyAt(s, p);
    AdvanceOnce(s, p, Local(Upgrading(saw), disk, n), 2, crew);
    AdvanceOnce(s, p, Local(UpgradeTruncated(saw), disk.(manifest := Unreadable), n), 1, crew);
    NoAdvance(At(s, p, Done(Hit(saw)), disk.(manifest := Written(crew(p))), n), p, crew);
  }

  lemma WalkToWaiting(s: State, p: Pid, crew: Crew)
    requires p < |s.places| && s.places[p].Start?
    requires !Says(s.disk.manifest, crew(p).digest) || s.disk.schemas.Missing?
    ensures Run(s, Advances(p, 3), crew) == At(s, p, Waiting, s.disk, s.rebuilds)
  {
    hide Run, Advances, At;
    var disk, n, seen := s.disk, s.rebuilds, Says(s.disk.manifest, crew(p).digest);
    AlreadyAt(s, p);
    AdvanceOnce(s, p, Local(Start, disk, n), 3, crew);
    AdvanceOnce(s, p, Local(ReadHash(seen), disk, n), 2, crew);
    AdvanceOnce(s, p, Local(ReadMetadata(seen, Stale(disk.manifest, crew(p))), disk, n), 1, crew);
    NoAdvance(At(s, p, Waiting, disk, n), p, crew);
  }

  lemma GiveUpWaiting(s: State, p: Pid, crew: Crew)
    requires p < |s.places| && s.places[p].Waiting? && s.disk.lock.Some?
    ensures Run(s, [(p, GiveUp)], crew) == At(s, p, TimedOut, s.disk, s.rebuilds)
  {
    assert LocalStep(s.places[p], s.disk, p, GiveUp, crew(p)) == Here(TimedOut, s.disk);
    hide Run, LocalStep;
    OneMove(s, p, GiveUp, crew);
  }

  lemma WalkToLockTimeout(s: State, p: Pid, crew: Crew)
    requires p < |s.places| && s.places[p].TimedOut?
    requires !Says(s.disk.manifest, crew(p).digest) || s.disk.schemas.Missing?
    ensures Run(s, Advances(p, 2), crew) == At(s, p, Done(LockTimeout), s.disk, s.rebuilds)
  {
    hide Run, Advances, At;
    var disk, n := s.disk, s.rebuilds;
    AlreadyAt(s, p);
    AdvanceOnce(s, p, Local(TimedOut, disk, n), 2, crew);
    AdvanceOnce(s, p, Local(TimedOutRead(Says(disk.manifest, crew(p).digest)), disk, n), 1, crew);
    NoAdvance(At(s, p, Done(LockTimeout), disk, n), p, crew);
  }

  lemma TimeOutAlone(s: State, p: Pid, crew: Crew)
    requires p < |s.places| && s.places[p].Start? && s.disk.lock.Some?
    requires !Says(s.disk.manifest, crew(p).digest) || s.disk.schemas.Missing?
    ensures Run(s, Advances(p, 3) + ([(p, GiveUp)] + Advances(p, 2)), crew)
         == At(s, p, Done(LockTimeout), s.disk, s.rebuilds)
  {
    WalkToWaiting(s, p, crew);
    var waiting := Run(s, Advances(p, 3), crew);
    GiveUpWaiting(waiting, p, crew);
    WalkToLockTimeout(Run(waiting, [(p, GiveUp)], crew), p, crew);
    RunAppend(waiting, [(p, GiveUp)], Advances(p, 2), crew);
    RunAppend(s, Advances(p, 3), [(p, GiveUp)] + Advances(p, 2), crew);
    hide Run, Advances;
  }

  /** No bundle: it is empty, or loading it raises. */
  lemma NoBundleAlone(s: State, p: Pid, move: Move, outcome: Outcome, crew: Crew)
    requires p < |s.places| && s.places[p].Start? && s.disk.lock.None?
    requires !Says(s.disk.manifest, crew(p).digest) || s.disk.schemas.Missing?
    requires (move == BuildEmpty && outcome == EmptyBundle) || (move == Fail && outcome == Raised)
    ensures Run(s, Advances(p, 6) + ([(p, move)] + Advances(p, 1)), crew) == At(s, p, Done(outcome), s.disk, s.rebuilds)
  {
    WalkToBuilding(s, p, crew);
    ReleaseEarly(At(s, p, Building, s.disk.(lock := Some(p)), s.rebuilds), p, move, outcome, crew);
    RunAppend(s, Advances(p, 6), [(p, move)] + Advances(p, 1), crew);
    hide Run, Advances;
  }

  lemma ReleaseEarly(s: State, p: Pid, move: Move, outcome: Outcome, crew: Crew)
    requires p < |s.places| && s.places[p].Building?
    requires (move == BuildEmpty && outcome == EmptyBundle) || (move == Fail && outcome == Raised)
    ensures Run(s, [(p, move)] + Advances(p, 1), crew) == At(s, p, Done(outcome), s.disk.(lock := None), s.rebuilds)
  {
    OneMove(s, p, move, crew);
    RunAppend(s, [(p, move)], Advances(p, 1), crew);
    assert LocalStep(s.places[p], s.disk, p, move, crew(p)) == Here(Releasing(outcome), s.disk);
    hide Run, Advances;
    assert Step(s, p, move, crew) == At(s, p, Releasing(outcome), s.disk, s.rebuilds);
    hide At;
    AdvanceOnce(s, p, Local(Releasing(outcome), s.disk, s.rebuilds), 1, crew);
    NoAdvance(At(s, p, Done(outcome), s.disk.(lock := None), s.rebuilds), p, crew);
  }

  /** What a process does alone is one of the runs above: its steps taken without interruption. */
  lemma AloneIsARun(s: State, p: Pid, crew: Crew, server: Answers) returns (trace: Trace)
    requires p < |s.places| && s.places[p].Start?
    ensures var alone, end := Alone(s.disk, crew(p), server), Run(s, trace, crew);
            && end.disk == alone.disk && end.places == s.places[p := Done(alone.outcome)]
            && end.rebuilds == s.rebuilds + if alone.outcome.Rebuilt? then 1 else 0
  {
    if server.NoCapabilities? {
      OneMove(s, p, EmptyCatalog, crew);
      trace := [(p, EmptyCatalog)];
    } else if Says(s.disk.manifest, crew(p).digest) && s.disk.schemas.Files? {
      if Stale(s.disk.manifest, crew(p)) {
        WalkToUpgrading(s, p, crew);
        UpgradeAlone(Run(s, Advances(p, 3), crew), p, crew);
        RunAppend(s, Advances(p, 3), Advances(p, 2), crew);
        trace := Advances(p, 3) + Advances(p, 2);
      } else {
        WalkToHit(s, p, crew);
        trace := Advances(p, 3);
      }
    } else if s.disk.lock.Some? {
      TimeOutAlone(s, p, crew);
      trace := Advances(p, 3) + ([(p, GiveUp)] + Advances(p, 2));
    } else if server.NoSchemas? || server.Breaks? {
      var move, outcome := if server.Breaks? then Fail else BuildEmpty, if server.Breaks? then Raised else EmptyBundle;
      NoBundleAlone(s, p, move, outcome, crew);
      trace := Advances(p, 6) + ([(p, move)] + Advances(p, 1));
    } else {
      var writing := WalkToWriting(s, p, crew);
      WalkToRebuilt(Run(s, writing, crew), p, crew);
      RunAppend(s, writing, Advances(p, 2), crew);
      trace := writing + Advances(p, 2);
    }
    hide Run, Advances;
  }
}
