/** What receipts say over whole runs, under arbitrary writers: which migration put the objects
    there, and what the receipt of an interrupted rollback still means later. */
module MigrationReceipts {
  import opened Fingerprints
  import opened Wrappers
  import opened Migration
  import opened MigrationRuns

  // ---- Receipts cover commits ----------------------------------------------

  ghost predicate SomeAddedPresent(db: Db) {
    exists k :: k in AddedKeys() && k in db.objects
  }

  lemma AbsentNotPresent(db: Db)
    requires AddedAbsent(db)
    ensures !SomeAddedPresent(db)
  {
  }

  lemma PresentApart(db: Db, origin: Db)
    requires SomeAddedPresent(db) && AddedAbsent(origin)
    ensures !SameLogical(db, origin)
  {
    var k :| k in AddedKeys() && k in db.objects;
    assert k in Schema(db) && k !in Schema(origin);
  }

  lemma NextKeepsFile(w: World, c: Registered, s: Step, path: Path)
    requires path in w.files
    ensures path in Next(w, c, s).files
    ensures Next(w, c, s).files[path]
         == if s.DoReconcile? && s.path == path && Reconcilable(w, path) && AfterReconcile(w, path, s.audit).1.Some?
            then WithState(w.files[path], Resolved(Classify(w, path)))
            else w.files[path]
  {
    hide FingerprintOf, Preflight, SnapshotUsable, Migrated, Restored, Droppable;
    match s
    case DoMigrate(snapshot, receipt, stop) =>
    case DoRollback(migration, receipt, stop) =>
    case DoSnapshot(backup, receipt, early, late, stop) =>
    case _ =>
  }

  /** The migration at step j committed the objects, they have been there ever since, and its own
      receipt is on disk at i, prepared or committed. */
  ghost predicate CoveredBy(worlds: seq<World>, c: Registered, steps: seq<Step>, i: nat, j: nat, path: Path) {
    && j < i < |worlds| && j < |steps|
    && path in worlds[i].files && StartedFrom(worlds[j], c, steps[j], path, worlds[i].files[path])
    && worlds[i].files[path].state != Aborted
    && worlds[j + 1].db == Migrated(worlds[j].db, c)
    && forall k :: j < k <= i ==> SomeAddedPresent(worlds[k].db)
  }

  /** If only this tool creates the four objects, then in every reachable state that holds one of
      them the migration that committed them has its own receipt on disk, prepared or
      committed, and they have been there ever since. */
  lemma {:induction false} ObjectsNeedReceipt(worlds: seq<World>, c: Registered, steps: seq<Step>, i: nat)
      returns (j: nat, path: Path)
    requires IsRun(worlds, c, steps) && i < |worlds|
    requires AddedAbsent(worlds[0].db)
    requires forall k, db :: 0 <= k < |steps| && db in Foreign(steps[k]) && SomeAddedPresent(db) ==>
               SomeAddedPresent(worlds[k].db)
    requires SomeAddedPresent(worlds[i].db)
    ensures CoveredBy(worlds, c, steps, i, j, path)
  {
    hide Next, SomeAddedPresent, StartedFrom, ValidDb, Reconcilable, Classify, FingerprintOf, MigrationAdmitted, Migrated;
    if i == 0 {
      AbsentNotPresent(worlds[0].db);
      assert false;
    } else {
      var w, s := worlds[i - 1], steps[i - 1];
      assert worlds[i - 1 + 1] == Next(w, c, s);
      if SomeAddedPresent(w.db) {
        j, path := ObjectsNeedReceipt(worlds, c, steps, i - 1);
        StillCovered(worlds, c, steps, i, j, path);
      } else {
        PresentMeansMigrated(w, c, s);
        j, path := i - 1, s.receipt;
      }
    }
  }

  /** No step takes the receipt of objects that are there away, or marks it aborted. */
  lemma StillCovered(worlds: seq<World>, c: Registered, steps: seq<Step>, i: nat, j: nat, path: Path)
    requires IsRun(worlds, c, steps) && 0 < i < |worlds| && CoveredBy(worlds, c, steps, i - 1, j, path)
    requires SomeAddedPresent(worlds[i].db)
    ensures CoveredBy(worlds, c, steps, i, j, path)
  {
    hide Next, SomeAddedPresent, ValidDb, Reconcilable, Classify, FingerprintOf, MigrationAdmitted, Migrated, AfterReconcile;
    var w, s := worlds[i - 1], steps[i - 1];
    assert worlds[i - 1 + 1] == Next(w, c, s);
    NextKeepsFile(w, c, s, path);
    if Reconcilable(w, path) {
      var origin := VerdictIsLogical(worlds, c, steps, i - 1, path);
      PresentApart(w.db, worlds[origin].db);
      assert Classify(w, path) != NotApplied;
    }
  }

  /** A step after which an added object is there, and before which none was, is a migration that
      committed under its own receipt. */
  lemma PresentMeansMigrated(w: World, c: Registered, s: Step)
    requires forall db :: db in Foreign(s) && SomeAddedPresent(db) ==> SomeAddedPresent(w.db)
    requires SomeAddedPresent(Next(w, c, s).db) && !SomeAddedPresent(w.db)
    ensures s.DoMigrate? && Next(w, c, s).db == Migrated(w.db, c)
    ensures s.receipt in Next(w, c, s).files
    ensures StartedFrom(w, c, s, s.receipt, Next(w, c, s).files[s.receipt])
    ensures Next(w, c, s).files[s.receipt].state != Aborted
  {
    hide Next, FingerprintOf, MigrationAdmitted, RollbackAdmitted, Migrated;
    NextDb(w, c, s);
  }

  // ---- Whose commit a verdict is about -------------------------------------

  /** Some step committed the objects under this receipt, and they have been there ever since. */
  ghost predicate OwnCommit(worlds: seq<World>, c: Registered, steps: seq<Step>, i: nat, path: Path) {
    exists k :: CoveredBy(worlds, c, steps, i, k, path)
  }

  /** A receipt on disk that is prepared or committed. */
  predicate Live(w: World, path: Path) {
    path in w.files && w.files[path].MigrationDoc? && w.files[path].state != Aborted
  }

  /** Objects that are there have one committing migration and one receipt of it. */
  lemma CoverIsUnique(worlds: seq<World>, c: Registered, steps: seq<Step>, i: nat, j: nat, path: Path, k: nat, other: Path)
    requires CoveredBy(worlds, c, steps, i, j, path) && CoveredBy(worlds, c, steps, i, k, other)
    ensures j == k && path == other
  {
    hide Migrated, FingerprintOf, SomeAddedPresent, Preflight, SnapshotUsable;
    PreflightAbsent(worlds[j].db, c);
    PreflightAbsent(worlds[k].db, c);
    AbsentNotPresent(worlds[j].db);
    AbsentNotPresent(worlds[k].db);
  }

  lemma LogicallyPresent(db: Db, origin: Db, c: Registered)
    requires SameLogical(db, Migrated(origin, c))
    ensures SomeAddedPresent(db)
  {
    assert ADDED[0] in AddedKeys();
    assert ADDED[0] in Schema(Migrated(origin, c)) && ADDED[0] in Schema(db);
  }

  /** Whose commit ALREADY_APPLIED is about, where only this tool creates the objects.  One live
      receipt, `cover`, belongs to the migration at j that committed the objects now there.  The
      verdict on `path` is about its own commit if and only if that receipt is `path`; so it is
      whenever no other receipt is live, and otherwise the covering receipt is another live
      file. */
  lemma VerdictIsOwnIff(worlds: seq<World>, c: Registered, steps: seq<Step>, i: nat, path: Path)
      returns (j: nat, cover: Path)
    requires IsRun(worlds, c, steps) && i < |worlds|
    requires AddedAbsent(worlds[0].db)
    requires forall k, db :: 0 <= k < |steps| && db in Foreign(steps[k]) && SomeAddedPresent(db) ==>
               SomeAddedPresent(worlds[k].db)
    requires Reconcilable(worlds[i], path) && Classify(worlds[i], path) == AlreadyApplied
    ensures CoveredBy(worlds, c, steps, i, j, cover) && Live(worlds[i], cover)
    ensures OwnCommit(worlds, c, steps, i, path) <==> cover == path
    ensures (forall p :: Live(worlds[i], p) ==> p == path) ==> cover == path
  {
    hide FingerprintOf, Next, SomeAddedPresent, Migrated, SameLogical, ValidDb, Classify, Reconcilable, MigrationAdmitted;
    var origin := VerdictIsLogical(worlds, c, steps, i, path);
    LogicallyPresent(worlds[i].db, worlds[origin].db, c);
    j, cover := ObjectsNeedReceipt(worlds, c, steps, i);
    if OwnCommit(worlds, c, steps, i, path) {
      var k :| CoveredBy(worlds, c, steps, i, k, path);
      CoverIsUnique(worlds, c, steps, i, j, cover, k, path);
    }
  }

  // ---- Rollback receipts ---------------------------------------------------

  /** w is the world an admitted rollback with this receipt started from. */
  ghost predicate RolledFrom(w: World, s: Step, path: Path, doc: Doc) {
    && s.DoRollback?
    && s.receipt == path
    && RollbackAdmitted(w, s.migration, s.receipt)
    && doc.RollbackDoc?
    && doc == RollbackReceipt(w, doc.state)
  }

  lemma NextRollbackReceipt(w: World, c: Registered, s: Step, path: Path)
    requires path in Next(w, c, s).files && Next(w, c, s).files[path].RollbackDoc?
    ensures || (path in w.files && w.files[path] == Next(w, c, s).files[path])
            || RolledFrom(w, s, path, Next(w, c, s).files[path])
  {
    hide FingerprintOf, Preflight, SnapshotUsable, Migrated, Restored, Droppable, MigrationAdmitted, RollbackAdmitted,
      RollbackOpens, Exists;
    match s
    case DoMigrate(snapshot, receipt, stop) =>
    case DoRollback(migration, receipt, stop) =>
    case DoSnapshot(backup, receipt, early, late, stop) =>
    case _ =>
  }

  /** Every rollback receipt found in a run was written by an admitted rollback of that run, and
      describes the database that rollback started from. */
  lemma {:induction false} RollbackHasOrigin(worlds: seq<World>, c: Registered, steps: seq<Step>, i: nat, path: Path)
      returns (j: nat)
    requires IsRun(worlds, c, steps) && i < |worlds|
    requires path in worlds[i].files && worlds[i].files[path].RollbackDoc?
    ensures j < i && RolledFrom(worlds[j], steps[j], path, worlds[i].files[path])
  {
    hide FingerprintOf, Next, RolledFrom;
    assert worlds[i - 1 + 1] == Next(worlds[i - 1], c, steps[i - 1]);
    NextRollbackReceipt(worlds[i - 1], c, steps[i - 1], path);
    if RolledFrom(worlds[i - 1], steps[i - 1], path, worlds[i].files[path]) {
      j := i - 1;
    } else {
      j := RollbackHasOrigin(worlds, c, steps, i - 1, path);
    }
  }

  /** Under arbitrary writers, the verdict on a rollback receipt is exact about the logical
      database: rolled back means the database the migration at m found, not applied means the
      one it committed, from which the rollback at j started. */
  lemma RollbackVerdictIsLogical(worlds: seq<World>, c: Registered, steps: seq<Step>, i: nat, path: Path)
      returns (m: nat, j: nat)
    requires IsRun(worlds, c, steps) && i < |worlds|
    requires RollbackReconcilable(worlds[i], path)
    ensures m < j < i && RolledFrom(worlds[j], steps[j], path, worlds[i].files[path])
    ensures steps[m].DoMigrate? && steps[m].receipt == steps[j].migration && AddedAbsent(worlds[m].db)
    ensures ClassifyRollback(worlds[i], path) == AlreadyApplied <==> SameLogical(worlds[i].db, worlds[m].db)
    ensures ClassifyRollback(worlds[i], path) == NotApplied <==> SameLogical(worlds[i].db, Migrated(worlds[m].db, c))
  {
    hide FingerprintOf, Next, ValidDb, Migrated, Restored, SameLogical, Preflight, SnapshotUsable, Droppable;
    j := RollbackHasOrigin(worlds, c, steps, i, path);
    var s := steps[j];
    m := ReceiptHasOrigin(worlds, c, steps, j, s.migration);
    RunValid(worlds, c, steps, i);
    RunValid(worlds, c, steps, j);
    RunValid(worlds, c, steps, m);
    PreflightAbsent(worlds[m].db, c);
    RollbackAcceptedIff(worlds[j], c, worlds[m], s.migration, s.receipt);
    DigestsOfRollback(worlds[i].db, worlds[j], c, worlds[m].db, s.migration, s.receipt);
  }

  lemma DigestsOfRollback(now: Db, w: World, c: Registered, origin: Db, migration: Path, receipt: Path)
    requires ValidDb(now) && ValidDb(w.db) && ValidDb(origin) && AddedAbsent(origin)
    requires RollbackAdmitted(w, migration, receipt) && SameLogical(w.db, Migrated(origin, c))
    ensures Logical(now) == Logical(Restored(w.db)) <==> SameLogical(now, origin)
    ensures Logical(now) == Logical(w.db) <==> SameLogical(now, Migrated(origin, c))
    ensures Logical(w.db) != Logical(Restored(w.db))
  {
    hide FingerprintOf, Migrated, Restored, SameLogical, ValidDb;
    FingerprintsOfOrigin(w, c, origin);
    MigratedValid(origin, c);
    FingerprintCanonical(now, origin);
    FingerprintCanonical(now, Migrated(origin, c));
    FingerprintCanonical(w.db, Migrated(origin, c));
  }
}
