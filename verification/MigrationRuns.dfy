/** What every run of the migration tool keeps, whatever is interrupted and whatever
    other connections write in between. */
module MigrationRuns {
  import opened Fingerprints
  import opened Wrappers
  import opened Migration

  // ---- One migration -------------------------------------------------------

  /** Exactly the four objects more, the new tables empty, every old table row for row. */
  ghost predicate CommitAdds(before: Db, after: Db, c: Registered) {
    && before.objects.Keys !! AddedKeys()
    && after.objects.Keys == before.objects.Keys + AddedKeys()
    && (forall k :: k in before.objects ==> after.objects[k] == before.objects[k])
    && (forall k :: k in AddedKeys() ==> after.objects[k] == c.desired[k])
    && after.rows.Keys == before.rows.Keys + AddedTables()
    && (forall name :: name in before.rows ==> after.rows[name] == before.rows[name])
    && (forall name :: name in AddedTables() ==> name !in before.rows && after.rows[name] == [])
    && after.userVersion == before.userVersion
  }

  lemma MigratedAdds(db: Db, c: Registered)
    requires ValidDb(db) && AddedAbsent(db)
    ensures CommitAdds(db, Migrated(db, c), c)
  {
    assert Key(Table, REQUESTS) in AddedKeys() && Key(Table, IDENTITY) in AddedKeys();
  }

  lemma MigratedDiffers(a: Db, b: Db, c: Registered)
    requires AddedAbsent(a)
    ensures !SameLogical(a, Migrated(b, c))
  {
    assert ADDED[0] in AddedKeys();
    assert ADDED[0] in Schema(Migrated(b, c)) && ADDED[0] !in Schema(a);
  }

  lemma NothingAdded(db: Db, c: Registered)
    ensures !CommitAdds(db, db, c)
  {
    assert ADDED[0] in AddedKeys();
  }

  /** migrate is all-or-nothing: whatever stops it, the database is as found or has
      exactly the commit, and it has the commit exactly when the stop came after it. */
  lemma MigrateAllOrNothing(w: World, c: Registered, snapshot: Path, receipt: Path, stop: Stop, w': World, outcome: Outcome)
    requires ValidDb(w.db)
    requires (w', outcome) == AfterMigrate(w, c, snapshot, receipt, stop)
    ensures w'.db == w.db || CommitAdds(w.db, w'.db, c)
    ensures CommitAdds(w.db, w'.db, c) <==>
              MigrationAdmitted(w, c, snapshot, receipt)
              && (stop == Never || stop == AfterCommit || (stop.AfterDdl? && !InDdl(stop)))
    ensures outcome == Refused || InDdl(stop) ==> w' == w
    ensures outcome == Done ==>
              CommitAdds(w.db, w'.db, c) && w'.files == w.files[receipt := MigrationReceipt(w, c, Committed)]
  {
    hide FingerprintOf, CommitAdds, Preflight, SnapshotUsable, Migrated;
    if MigrationAdmitted(w, c, snapshot, receipt) {
      PreflightAbsent(w.db, c);
      MigratedAdds(w.db, c);
    }
    NothingAdded(w.db, c);
  }

  /** Crash recovery is exact.  With no other writer, an interrupted migration can be
      reconciled exactly when its receipt is complete, and then the verdict says
      whether COMMIT happened.  The one interruption that leaves a receipt without a
      verdict is a death while the receipt itself is written; nothing is committed then. */
  lemma RecoveryExact(w: World, c: Registered, snapshot: Path, receipt: Path, stop: Stop)
    requires ValidDb(w.db)
    requires AfterMigrate(w, c, snapshot, receipt, stop).1 == Interrupted
    ensures var w' := AfterMigrate(w, c, snapshot, receipt, stop).0;
            && (Reconcilable(w', receipt) <==> stop == BeforeCommit || stop == AfterCommit)
            && (Reconcilable(w', receipt) ==>
                  && (Classify(w', receipt) == AlreadyApplied <==> w'.db == Migrated(w.db, c))
                  && (Classify(w', receipt) == NotApplied <==> w'.db == w.db)
                  && Classify(w', receipt) != Unknown)
            && (receipt in w'.files && !Reconcilable(w', receipt) <==> stop == TornReceipt)
            && (!Reconcilable(w', receipt) ==> w'.db == w.db)
  {
    hide FingerprintOf, Preflight, SnapshotUsable, Migrated, SameLogical, ValidDb;
    PreflightAbsent(w.db, c);
    MigratedValid(w.db, c);
    MigratedDiffers(w.db, w.db, c);
    FingerprintCanonical(w.db, Migrated(w.db, c));
  }

  /** Reconciling an interrupted migration finalises the receipt as the verdict says and
      changes nothing else; a second reconciliation is refused. */
  lemma ReconcileFinalises(w: World, c: Registered, snapshot: Path, receipt: Path, stop: Stop)
    requires ValidDb(w.db)
    requires AfterMigrate(w, c, snapshot, receipt, stop).1 == Interrupted
    requires stop == BeforeCommit || stop == AfterCommit
    ensures var w' := AfterMigrate(w, c, snapshot, receipt, stop).0;
            var (w'', verdict) := AfterReconcile(w', receipt, None);
            && w'' == w'.(files := w.files[receipt := MigrationReceipt(w, c, if stop == AfterCommit then Committed else Aborted)])
            && verdict == Some(if stop == AfterCommit then AlreadyApplied else NotApplied)
            && AfterReconcile(w'', receipt, None) == (w'', None)
  {
    hide FingerprintOf, Classify, SnapshotUsable, Preflight, Migrated;
    RecoveryExact(w, c, snapshot, receipt, stop);
    var w' := AfterMigrate(w, c, snapshot, receipt, stop).0;
    assert Classify(w', receipt) == if stop == AfterCommit then AlreadyApplied else NotApplied;
  }

  // ---- One rollback --------------------------------------------------------

  lemma RestoreUndoesSchema(current: Db, origin: Db, c: Registered)
    requires AddedAbsent(origin) && Schema(current) == Schema(Migrated(origin, c))
    ensures Schema(Restored(current)) == Schema(origin)
    ensures AddedKeys() <= current.objects.Keys
  {
    hide AddedKeys, Sql;
    assert current.objects.Keys == Schema(Migrated(origin, c)).Keys == origin.objects.Keys + AddedKeys();
    forall k | k in origin.objects ensures Sql(current.objects[k]) == Sql(origin.objects[k]) {
      assert Schema(current)[k] == Schema(Migrated(origin, c))[k];
    }
    assert Restored(current).objects.Keys == origin.objects.Keys;
  }

  lemma RestoreUndoesRows(current: Db, origin: Db, c: Registered)
    requires ValidDb(origin) && AddedAbsent(origin)
    requires SameLogical(current, Migrated(origin, c))
    ensures Restored(current).rows.Keys == origin.rows.Keys
    ensures forall name :: name in origin.rows ==> multiset(Restored(current).rows[name]) == multiset(origin.rows[name])
    ensures forall name :: name in AddedTables() ==> name in current.rows && current.rows[name] == []
  {
    MigratedAdds(origin, c);
    var migrated := Migrated(origin, c);
    forall name | name in AddedTables() ensures name in current.rows && current.rows[name] == [] {
      assert migrated.rows[name] == [];
      assert |current.rows[name]| == |multiset(current.rows[name])| == 0;
    }
    assert current.rows.Keys - AddedTables() == origin.rows.Keys;
    forall name | name in origin.rows
      ensures multiset(Restored(current).rows[name]) == multiset(origin.rows[name])
    {
      assert multiset(current.rows[name]) == multiset(migrated.rows[name]);
    }
  }

  lemma RestoreUndoes(current: Db, origin: Db, c: Registered)
    requires ValidDb(origin) && AddedAbsent(origin)
    requires SameLogical(current, Migrated(origin, c))
    ensures SameLogical(Restored(current), origin)
    ensures AddedKeys() <= current.objects.Keys
    ensures forall name :: name in AddedTables() ==> name in current.rows && current.rows[name] == []
  {
    RestoreUndoesSchema(current, origin, c);
    RestoreUndoesRows(current, origin, c);
  }

  /** Every row outside the two added tables stays, and those two hold none. */
  ghost predicate NoRowDropped(before: Db, after: Db) {
    forall name :: name in before.rows ==>
      if name in AddedTables() then before.rows[name] == []
      else name in after.rows && after.rows[name] == before.rows[name]
  }

  // ---- Runs ----------------------------------------------------------------

  /** `Write` is any commit by another connection, `SwapFile` another file put in place
      of the database, `Damage` a change to a backup file. */
  datatype Step =
    | DoSnapshot(backup: Path, receipt: Path, early: Option<Db>, late: Option<Db>, stop: Stop)
    | DoMigrate(snapshot: Path, receipt: Path, stop: Stop)
    | DoReconcile(path: Path, audit: Option<Path>)
    | DoRollback(migration: Path, receipt: Path, stop: Stop)
    | DoReconcileRollback(path: Path, about: Path)
    | Write(db: Db)
    | SwapFile(db: Db, fileId: int)
    | Damage(backup: Path, db: Db)

  /** What other connections write in a step. */
  function Foreign(s: Step): set<Db> {
    match s
    case DoSnapshot(_, _, early, late, _) =>
      (if early.Some? then {early.value} else {}) + (if late.Some? then {late.value} else {})
    case Write(db) => {db}
    case SwapFile(db, _) => {db}
    case _ => {}
  }

  function Next(w: World, c: Registered, s: Step): World {
    match s
    case DoSnapshot(backup, receipt, early, late, stop) => AfterSnapshot(w, backup, receipt, early, late, stop).0
    case DoMigrate(snapshot, receipt, stop) => AfterMigrate(w, c, snapshot, receipt, stop).0
    case DoReconcile(path, audit) => AfterReconcile(w, path, audit).0
    case DoRollback(migration, receipt, stop) => AfterRollback(w, migration, receipt, stop).0
    case DoReconcileRollback(path, about) => AfterReconcileRollback(w, path, about).0
    case Write(db) => w.(db := db)
    case SwapFile(db, fileId) => w.(db := db, fileId := fileId)
    case Damage(backup, db) => if backup in w.backups then w.(backups := w.backups[backup := db]) else w
  }

  ghost predicate IsRun(worlds: seq<World>, c: Registered, steps: seq<Step>) {
    && |worlds| == |steps| + 1
    && ValidDb(worlds[0].db)
    && worlds[0].files == map[]
    && (forall i, db :: 0 <= i < |steps| && db in Foreign(steps[i]) ==> ValidDb(db))
    && (forall i :: 0 <= i < |steps| ==> worlds[i + 1] == Next(worlds[i], c, steps[i]))
  }

  lemma {:induction false} RunValid(worlds: seq<World>, c: Registered, steps: seq<Step>, i: nat)
    requires IsRun(worlds, c, steps) && i < |worlds|
    ensures ValidDb(worlds[i].db)
    ensures worlds[i].source == worlds[0].source
  {
    if i > 0 {
      RunValid(worlds, c, steps, i - 1);
      NextValid(worlds[i - 1], c, steps[i - 1]);
      assert worlds[i - 1 + 1] == Next(worlds[i - 1], c, steps[i - 1]);
    }
  }

  /** A step leaves the database, commits the migration, undoes it, or lets another
      connection write. */
  lemma NextDb(w: World, c: Registered, s: Step)
    ensures Next(w, c, s).source == w.source
    ensures || Next(w, c, s).db == w.db
            || (s.DoMigrate? && MigrationAdmitted(w, c, s.snapshot, s.receipt) && Next(w, c, s).db == Migrated(w.db, c)
                && s.receipt in Next(w, c, s).files
                && Next(w, c, s).files[s.receipt] in {MigrationReceipt(w, c, Prepared), MigrationReceipt(w, c, Committed)})
            || (s.DoRollback? && RollbackAdmitted(w, s.migration, s.receipt) && Next(w, c, s).db == Restored(w.db))
            || Next(w, c, s).db in Foreign(s)
  {
    hide FingerprintOf, MigrationAdmitted, RollbackAdmitted, RollbackOpens, Migrated, Restored, Reconcilable, Exists;
    match s
    case DoMigrate(snapshot, receipt, stop) =>
    case DoRollback(migration, receipt, stop) =>
    case DoSnapshot(backup, receipt, early, late, stop) =>
    case _ =>
  }

  lemma NextValid(w: World, c: Registered, s: Step)
    requires ValidDb(w.db)
    requires forall db :: db in Foreign(s) ==> ValidDb(db)
    ensures ValidDb(Next(w, c, s).db)
    ensures Next(w, c, s).source == w.source
  {
    hide Next, ValidDb, Migrated, Restored, MigrationAdmitted, RollbackAdmitted;
    NextDb(w, c, s);
    MigratedValid(w.db, c);
    RestoredValid(w.db);
  }

  /** w is the world a migration with this receipt started from. */
  ghost predicate StartedFrom(w: World, c: Registered, s: Step, path: Path, doc: Doc) {
    && s.DoMigrate?
    && s.receipt == path
    && MigrationAdmitted(w, c, s.snapshot, s.receipt)
    && doc.MigrationDoc?
    && doc == MigrationReceipt(w, c, doc.state)
  }

  lemma NextReceipt(w: World, c: Registered, s: Step, path: Path)
    requires path in Next(w, c, s).files && Next(w, c, s).files[path].MigrationDoc?
    ensures || (path in w.files && w.files[path].MigrationDoc?
                && Next(w, c, s).files[path] == WithState(w.files[path], Next(w, c, s).files[path].state))
            || StartedFrom(w, c, s, path, Next(w, c, s).files[path])
  {
    hide FingerprintOf, Preflight, SnapshotUsable, Migrated, Restored, Droppable;
    match s
    case DoMigrate(snapshot, receipt, stop) =>
    case DoRollback(migration, receipt, stop) =>
    case DoSnapshot(backup, receipt, early, late, stop) =>
    case _ =>
  }

  /** Every migration receipt found in a run was written by a migration of that run,
      and describes the database that migration started from. */
  lemma {:induction false} ReceiptHasOrigin(worlds: seq<World>, c: Registered, steps: seq<Step>, i: nat, path: Path)
      returns (j: nat)
    requires IsRun(worlds, c, steps) && i < |worlds|
    requires path in worlds[i].files && worlds[i].files[path].MigrationDoc?
    ensures j < i && StartedFrom(worlds[j], c, steps[j], path, worlds[i].files[path])
  {
    hide FingerprintOf;
    assert worlds[i - 1 + 1] == Next(worlds[i - 1], c, steps[i - 1]);
    NextReceipt(worlds[i - 1], c, steps[i - 1], path);
    if StartedFrom(worlds[i - 1], c, steps[i - 1], path, worlds[i].files[path]) {
      j := i - 1;
    } else {
      j := ReceiptHasOrigin(worlds, c, steps, i - 1, path);
    }
  }

  /** Under arbitrary writers, a verdict is exact about the logical database: it compares
      the database with what the receipt's migration started from and would commit. */
  lemma VerdictIsLogical(worlds: seq<World>, c: Registered, steps: seq<Step>, i: nat, path: Path) returns (j: nat)
    requires IsRun(worlds, c, steps) && i < |worlds|
    requires Reconcilable(worlds[i], path)
    ensures j < i && StartedFrom(worlds[j], c, steps[j], path, worlds[i].files[path])
    ensures AddedAbsent(worlds[j].db)
    ensures Classify(worlds[i], path) == AlreadyApplied <==> SameLogical(worlds[i].db, Migrated(worlds[j].db, c))
    ensures Classify(worlds[i], path) == NotApplied <==> SameLogical(worlds[i].db, worlds[j].db)
  {
    j := ReceiptHasOrigin(worlds, c, steps, i, path);
    var origin, now := worlds[j].db, worlds[i].db;
    RunValid(worlds, c, steps, i);
    RunValid(worlds, c, steps, j);
    PreflightAbsent(origin, c);
    MigratedValid(origin, c);
    FingerprintCanonical(now, Migrated(origin, c));
    FingerprintCanonical(now, origin);
    FingerprintCanonical(origin, Migrated(origin, c));
    MigratedDiffers(origin, origin, c);
  }

  lemma FingerprintsOfOrigin(w: World, c: Registered, origin: Db)
    requires ValidDb(w.db) && ValidDb(origin) && AddedAbsent(origin)
    ensures FingerprintOf(w.db) == FingerprintOf(Migrated(origin, c)) <==> SameLogical(w.db, Migrated(origin, c))
    ensures SameLogical(w.db, Migrated(origin, c)) ==>
            && Logical(w.db) != Logical(origin)
            && Logical(Restored(w.db)) == Logical(origin)
            && Droppable(w.db, |ADDED|)
            && (forall name :: name in AddedTables() ==> name in w.db.rows && w.db.rows[name] == [])
  {
    hide FingerprintOf;
    MigratedValid(origin, c);
    RestoredValid(w.db);
    FingerprintCanonical(w.db, Migrated(origin, c));
    if SameLogical(w.db, Migrated(origin, c)) {
      FingerprintCanonical(w.db, origin);
      FingerprintCanonical(Restored(w.db), origin);
      RestoreUndoes(w.db, origin, c);
      AddedDistinct();
      assert ADDED[0..] == ADDED;
      SameLogicalApart(w.db, origin, c);
    }
  }

  /** A rollback is accepted exactly when nothing logical changed since the commit. */
  lemma RollbackAcceptedIff(w: World, c: Registered, origin: World, migration: Path, receipt: Path)
    requires ValidDb(w.db) && ValidDb(origin.db) && AddedAbsent(origin.db)
    requires migration in w.files && w.files[migration] == MigrationReceipt(origin, c, Committed)
    requires w.source == origin.source
    ensures RollbackAdmitted(w, migration, receipt) <==>
            && !Exists(w, receipt)
            && w.fileId == origin.fileId
            && w.db.sound
            && SameLogical(w.db, Migrated(origin.db, c))
  {
    hide FingerprintOf, SameLogical, Migrated, Restored, Droppable, ValidDb;
    FingerprintsOfOrigin(w, c, origin.db);
  }

  lemma SameLogicalApart(current: Db, origin: Db, c: Registered)
    requires AddedAbsent(origin) && SameLogical(current, Migrated(origin, c))
    ensures !SameLogical(current, origin)
  {
    assert ADDED[0] in AddedKeys();
    assert ADDED[0] in Schema(Migrated(origin, c)) && ADDED[0] !in Schema(origin);
  }

  /** Whatever was written in between: a rollback that changes the database restores the
      logical database its migration started from, and drops no row. */
  lemma RollbackRestoresOrigin(worlds: seq<World>, c: Registered, steps: seq<Step>, i: nat) returns (j: nat)
    requires IsRun(worlds, c, steps) && i < |steps| && steps[i].DoRollback?
    requires worlds[i + 1].db != worlds[i].db
    ensures j < i && steps[j].DoMigrate? && steps[j].receipt == steps[i].migration
    ensures SameLogical(worlds[i].db, Migrated(worlds[j].db, c))
    ensures SameLogical(worlds[i + 1].db, worlds[j].db)
    ensures NoRowDropped(worlds[i].db, worlds[i + 1].db)
  {
    hide FingerprintOf, Next, ValidDb, Migrated, SameLogical, Preflight, SnapshotUsable;
    var s := steps[i];
    assert worlds[i + 1] == Next(worlds[i], c, s);
    NextDb(worlds[i], c, s);
    j := ReceiptHasOrigin(worlds, c, steps, i, s.migration);
    RunValid(worlds, c, steps, i);
    RunValid(worlds, c, steps, j);
    PreflightAbsent(worlds[j].db, c);
    RollbackAcceptedIff(worlds[i], c, worlds[j], s.migration, s.receipt);
    RestoreUndoes(worlds[i].db, worlds[j].db, c);
    assert worlds[i + 1].db == Restored(worlds[i].db);
  }

  /** Recovery of an interrupted rollback is exact in the same way. */
  lemma RollbackRecoveryExact(w: World, c: Registered, origin: World, migration: Path, receipt: Path, stop: Stop)
    requires ValidDb(w.db) && ValidDb(origin.db) && AddedAbsent(origin.db)
    requires migration in w.files && w.files[migration] == MigrationReceipt(origin, c, Committed)
    requires w.source == origin.source
    requires AfterRollback(w, migration, receipt, stop).1 == Interrupted
    ensures var w' := AfterRollback(w, migration, receipt, stop).0;
            && (RollbackReconcilable(w', receipt) <==> stop == BeforeCommit || stop == AfterCommit)
            && (RollbackReconcilable(w', receipt) ==>
                  && (ClassifyRollback(w', receipt) == AlreadyApplied <==> w'.db == Restored(w.db))
                  && (ClassifyRollback(w', receipt) == NotApplied <==> w'.db == w.db)
                  && ClassifyRollback(w', receipt) != Unknown)
            && (!RollbackReconcilable(w', receipt) ==> w'.db == w.db)
  {
    hide FingerprintOf;
    if RollbackAdmitted(w, migration, receipt) {
      assert Logical(Restored(w.db)) != Logical(w.db);
    }
  }

  /** The verdict is about the database, not about who committed: if a first migration
      dies before COMMIT and a second one with its own receipt completes, reconciling
      the first receipt also reports ALREADY_APPLIED and marks it committed. */
  lemma RetriedMigrationClaimsBoth(w: World, c: Registered, snapshot: Path, first: Path, second: Path,
                                   w1: World, w2: World, w3: World, verdict: Option<Verdict>)
    requires ValidDb(w.db) && first != second && !Exists(w, second)
    requires MigrationAdmitted(w, c, snapshot, first)
    requires w1 == AfterMigrate(w, c, snapshot, first, BeforeCommit).0
    requires w2 == AfterMigrate(w1, c, snapshot, second, Never).0
    requires (w3, verdict) == AfterReconcile(w2, first, None)
    ensures w1.db == w.db
    ensures verdict == Some(AlreadyApplied)
    ensures w3.files == w.files[first := MigrationReceipt(w, c, Committed)][second := MigrationReceipt(w, c, Committed)]
  {
    hide FingerprintOf, Preflight, Migrated;
    assert SnapshotUsable(w1, snapshot);
    assert MigrationAdmitted(w1, c, snapshot, second);
    assert MigrationReceipt(w1, c, Committed) == MigrationReceipt(w, c, Committed);
    assert w2.db == Migrated(w.db, c);
    assert w2.files == w.files[first := MigrationReceipt(w, c, Prepared)][second := MigrationReceipt(w, c, Committed)];
    assert Classify(w2, first) == AlreadyApplied;
    assert w3.files == w2.files[first := MigrationReceipt(w, c, Committed)];
  }

  /** An accepted snapshot is usable at once and holds the logical database as it stands,
      although other connections may have written before and after the copy. */
  lemma SnapshotFaithful(w: World, backup: Path, receipt: Path, early: Option<Db>, late: Option<Db>, w': World)
    requires ValidDb(w.db)
    requires early.Some? ==> ValidDb(early.value)
    requires late.Some? ==> ValidDb(late.value)
    requires AfterSnapshot(w, backup, receipt, early, late, Never) == (w', Done)
    ensures backup in w'.backups && SameLogical(w'.backups[backup], w'.db)
    ensures SameLogical(w.db, w'.db)
    ensures SnapshotUsable(w', receipt) && FingerprintOf(w'.db) == w'.files[receipt].logical
  {
    hide FingerprintOf, SameLogical;
    var copied := Overwritten(w.db, early);
    var last := Overwritten(copied, late);
    assert ValidDb(copied) && ValidDb(last);
    assert w'.db == last && w'.backups[backup] == copied;
    FingerprintCanonical(w.db, last);
    FingerprintCanonical(copied, w.db);
    FingerprintCanonical(copied, last);
  }

  lemma RestoredMigrated(db: Db, c: Registered)
    requires ValidDb(db) && AddedAbsent(db)
    ensures Restored(Migrated(db, c)) == db
  {
    assert Key(Table, REQUESTS) in AddedKeys() && Key(Table, IDENTITY) in AddedKeys();
    assert Restored(Migrated(db, c)).objects == db.objects;
    assert Restored(Migrated(db, c)).rows == db.rows;
  }

  predicate AllNew(w: World, backup: Path, snapshot: Path, receipt: Path, undo: Path) {
    && !Exists(w, backup) && !Exists(w, snapshot) && !Exists(w, receipt) && !Exists(w, undo)
    && backup != snapshot && backup != receipt && backup != undo
    && snapshot != receipt && snapshot != undo && receipt != undo
  }

  /** Undisturbed, the tool does its work: from every sound database that passes the
      preflight a snapshot, a migration and a rollback all complete, the migration commits,
      and the rollback leaves the very database there was. */
  lemma UndisturbedRun(w: World, c: Registered, backup: Path, snapshot: Path, receipt: Path, undo: Path)
    requires ValidDb(w.db) && w.db.sound && Preflight(w.db, c) && AllNew(w, backup, snapshot, receipt, undo)
    ensures var (w1, first) := AfterSnapshot(w, backup, snapshot, None, None, Never);
            var (w2, second) := AfterMigrate(w1, c, snapshot, receipt, Never);
            var (w3, third) := AfterRollback(w2, receipt, undo, Never);
            && first == second == third == Done
            && CommitAdds(w.db, w2.db, c)
            && w3.db == w.db
  {
    hide FingerprintOf, Preflight, CommitAdds, Migrated, Restored, Droppable, SameLogical, RollbackAdmitted, RollbackOpens,
      MigrationAdmitted, SnapshotUsable;
    UndisturbedMigration(w, c, backup, snapshot, receipt, undo);
    var w1 := AfterSnapshot(w, backup, snapshot, None, None, Never).0;
    var w2 := AfterMigrate(w1, c, snapshot, receipt, Never).0;
    PreflightAbsent(w.db, c);
    MigratedValid(w.db, c);
    MigratedSelf(w.db, c);
    RollbackAcceptedIff(w2, c, w1, receipt, undo);
    AdmittedOpens(w2, receipt, undo);
    RestoredMigrated(w.db, c);
  }

  lemma AdmittedOpens(w: World, migration: Path, receipt: Path)
    requires RollbackAdmitted(w, migration, receipt)
    ensures RollbackOpens(w, migration, receipt)
  {
  }

  /** Snapshot and migration: both complete, under the paths that were new. */
  lemma UndisturbedMigration(w: World, c: Registered, backup: Path, snapshot: Path, receipt: Path, undo: Path)
    requires ValidDb(w.db) && w.db.sound && Preflight(w.db, c) && AllNew(w, backup, snapshot, receipt, undo)
    ensures var (w1, first) := AfterSnapshot(w, backup, snapshot, None, None, Never);
            var (w2, second) := AfterMigrate(w1, c, snapshot, receipt, Never);
            && first == second == Done && w1.db == w.db && w2.db == Migrated(w.db, c)
            && CommitAdds(w.db, w2.db, c)
            && receipt in w2.files && w2.files[receipt] == MigrationReceipt(w1, c, Committed)
            && w2.source == w1.source == w.source && w2.fileId == w1.fileId && !Exists(w2, undo)
  {
    hide FingerprintOf, Preflight, CommitAdds, Migrated;
    var w1 := AfterSnapshot(w, backup, snapshot, None, None, Never).0;
    PreflightAbsent(w.db, c);
    MigratedAdds(w.db, c);
    assert MigrationAdmitted(w1, c, snapshot, receipt);
  }

  lemma MigratedSelf(db: Db, c: Registered)
    ensures SameLogical(Migrated(db, c), Migrated(db, c)) && Migrated(db, c).sound == db.sound
  {
  }
}
