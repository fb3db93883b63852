/** What each operation of the migration tool decides, said of databases, schemas and earlier
    steps instead of the checks it makes. */
module MigrationDecisions {
  import opened Fingerprints
  import opened Wrappers
  import opened Migration
  import opened MigrationRuns
  import opened MigrationReceipts

  // ---- Schemas -------------------------------------------------------------

  /** Every registered object with its normalised text. */
  function RegisteredSchema(c: Registered): map<Key, string> {
    map k | k in c.base + c.desired :: Sql((c.base + c.desired)[k])
  }

  lemma PreflightIff(db: Db, c: Registered)
    ensures Preflight(db, c) <==> Schema(db) == RegisteredSchema(c) - AddedKeys()
  {
    hide Sql;
    AddedDistinct();
    hide ADDED;
    var all := RegisteredSchema(c) - AddedKeys();
    assert all.Keys == PreflightNames(c);
    if Preflight(db, c) {
      assert Schema(db).Keys == all.Keys;
      assert forall k :: k in all ==> Schema(db)[k] == all[k];
    }
  }

  lemma MigratedSchema(db: Db, c: Registered)
    requires Schema(db) == RegisteredSchema(c) - AddedKeys()
    ensures Schema(Migrated(db, c)) == RegisteredSchema(c)
  {
    hide Sql, AddedKeys;
    var now, all := Schema(Migrated(db, c)), RegisteredSchema(c);
    assert now.Keys == db.objects.Keys + AddedKeys() == all.Keys;
    forall k | k in all ensures now[k] == all[k] {
      if k !in AddedKeys() {
        assert Schema(db)[k] == (all - AddedKeys())[k];
      }
    }
  }

  /** Nothing is at the path: neither the database, nor a receipt, nor a backup. */
  predicate Free(w: World, path: Path) {
    path != w.source && path !in w.files && path !in w.backups
  }

  /** A stop that comes after COMMIT, or never. */
  predicate Commits(stop: Stop) {
    match stop
    case Never => true
    case AfterCommit => true
    case AfterDdl(n) => n == 0 || n > 4
    case TornReceipt => false
    case BeforeCommit => false
  }

  /** A snapshot receipt of this file whose backup is as it was sealed, sound, and has the
      fingerprint of the database. */
  predicate MatchingSnapshot(w: World, path: Path) {
    && path in w.files && w.files[path].SnapshotDoc?
    && var doc := w.files[path];
    && doc.source == w.source && doc.fileId == w.fileId
    && doc.backup in w.backups && doc.backupSha == FileSha(w.backups[doc.backup])
    && w.backups[doc.backup].sound
    && doc.logical == FingerprintOf(w.backups[doc.backup]) == FingerprintOf(w.db)
  }

  lemma AdmittedIff(w: World, c: Registered, snapshot: Path, receipt: Path)
    ensures MigrationAdmitted(w, c, snapshot, receipt)
       <==> && Free(w, receipt) && w.db.sound && MatchingSnapshot(w, snapshot)
            && Schema(w.db) == RegisteredSchema(c) - AddedKeys()
  {
    PreflightIff(w.db, c);
    hide FingerprintOf, Preflight, RegisteredSchema, AddedKeys, Schema;
  }

  /** When exactly a migration commits: no stop before COMMIT, a new receipt, a sound database
      with a matching snapshot, and a schema that is the registered one without the four
      objects.  Then it is the registered one with them. */
  lemma MigratesIff(w: World, c: Registered, snapshot: Path, receipt: Path, stop: Stop)
    requires ValidDb(w.db)
    ensures var (w', outcome) := AfterMigrate(w, c, snapshot, receipt, stop);
            && (w'.db != w.db
                <==> && Commits(stop) && Free(w, receipt) && w.db.sound && MatchingSnapshot(w, snapshot)
                     && Schema(w.db) == RegisteredSchema(c) - AddedKeys())
            && (w'.db != w.db ==> Schema(w'.db) == RegisteredSchema(c))
            && (outcome == Done <==> w'.db != w.db && stop != AfterCommit)
  {
    AdmittedIff(w, c, snapshot, receipt);
    hide MigrationAdmitted, Migrated, RegisteredSchema, ValidDb, AddedKeys, MatchingSnapshot, Schema, MigrationReceipt, Exists;
    if MigrationAdmitted(w, c, snapshot, receipt) {
      MigratedSchema(w.db, c);
      AdmittedAbsent(w, c, snapshot, receipt);
      MigratedApart(w.db, c);
    }
  }

  lemma AdmittedAbsent(w: World, c: Registered, snapshot: Path, receipt: Path)
    requires MigrationAdmitted(w, c, snapshot, receipt)
    ensures AddedAbsent(w.db)
  {
    hide Preflight;
    PreflightAbsent(w.db, c);
  }

  lemma MigratedApart(db: Db, c: Registered)
    requires AddedAbsent(db)
    ensures Migrated(db, c) != db
  {
    assert ADDED[0] in AddedKeys();
    assert ADDED[0] in Migrated(db, c).objects;
  }

  // ---- Over runs: which snapshot -------------------------------------------

  /** The copy a snapshot step makes. */
  function Copied(w: World, s: Step): Db
    requires s.DoSnapshot?
  {
    Overwritten(w.db, s.early)
  }

  /** A snapshot of this step was accepted and its receipt is the one given. */
  ghost predicate Taken(w: World, s: Step, path: Path, doc: Doc) {
    && s.DoSnapshot? && s.receipt == path && doc.SnapshotDoc?
    && doc == SnapshotDoc(w.source, w.fileId, s.backup, FileSha(Copied(w, s)), FingerprintOf(Copied(w, s)))
    && Copied(w, s).sound
  }

  lemma NextSnapshotReceipt(w: World, c: Registered, s: Step, path: Path)
    requires path in Next(w, c, s).files && Next(w, c, s).files[path].SnapshotDoc?
    ensures || (path in w.files && w.files[path] == Next(w, c, s).files[path])
            || Taken(w, s, path, Next(w, c, s).files[path])
  {
    hide FingerprintOf, Preflight, SnapshotUsable, Migrated, Restored, Droppable, MigrationAdmitted, RollbackAdmitted,
      RollbackOpens, Exists;
    match s
    case DoMigrate(snapshot, receipt, stop) =>
    case DoRollback(migration, receipt, stop) =>
    case DoSnapshot(backup, receipt, early, late, stop) =>
    case _ =>
  }

  /** Every snapshot receipt found in a run was written by an accepted snapshot of that run. */
  lemma {:induction false} SnapshotHasOrigin(worlds: seq<World>, c: Registered, steps: seq<Step>, i: nat, path: Path)
      returns (j: nat)
    requires IsRun(worlds, c, steps) && i < |worlds|
    requires path in worlds[i].files && worlds[i].files[path].SnapshotDoc?
    ensures j < i && Taken(worlds[j], steps[j], path, worlds[i].files[path])
  {
    hide FingerprintOf, Next, Taken;
    assert worlds[i - 1 + 1] == Next(worlds[i - 1], c, steps[i - 1]);
    NextSnapshotReceipt(worlds[i - 1], c, steps[i - 1], path);
    if Taken(worlds[i - 1], steps[i - 1], path, worlds[i].files[path]) {
      j := i - 1;
    } else {
      j := SnapshotHasOrigin(worlds, c, steps, i - 1, path);
    }
  }

  lemma CopiedValid(worlds: seq<World>, c: Registered, steps: seq<Step>, j: nat)
    requires IsRun(worlds, c, steps) && j < |steps| && steps[j].DoSnapshot?
    ensures ValidDb(Copied(worlds[j], steps[j]))
  {
    hide Next, ValidDb;
    RunValid(worlds, c, steps, j);
    if steps[j].early.Some? {
      assert steps[j].early.value in Foreign(steps[j]);
    }
  }

  /** The receipt of a snapshot step still speaks for the database: the same file, the backup as
      the step copied it, and logically the database as it is now. */
  ghost predicate StillHolds(w: World, taken: World, s: Step)
    requires s.DoSnapshot?
  {
    && w.fileId == taken.fileId
    && s.backup in w.backups && w.backups[s.backup] == Copied(taken, s)
    && SameLogical(w.db, Copied(taken, s))
  }

  /** Over every run, when exactly a migration step commits.  What it needs of a snapshot is one
      accepted earlier, at j, that still holds: nothing logical changed since. */
  lemma MigrationStepIff(worlds: seq<World>, c: Registered, steps: seq<Step>, i: nat) returns (j: nat)
    requires IsRun(worlds, c, steps) && i < |steps| && steps[i].DoMigrate?
    ensures var s, w := steps[i], worlds[i];
            && (s.snapshot in w.files && w.files[s.snapshot].SnapshotDoc?
                ==> j < i && Taken(worlds[j], steps[j], s.snapshot, w.files[s.snapshot]))
            && (worlds[i + 1].db != w.db
                <==> && Commits(s.stop) && Free(w, s.receipt) && w.db.sound
                     && Schema(w.db) == RegisteredSchema(c) - AddedKeys()
                     && s.snapshot in w.files && w.files[s.snapshot].SnapshotDoc?
                     && StillHolds(w, worlds[j], steps[j]))
            && (worlds[i + 1].db != w.db ==> Schema(worlds[i + 1].db) == RegisteredSchema(c))
  {
    var s, w := steps[i], worlds[i];
    RunValid(worlds, c, steps, i);
    assert worlds[i + 1] == AfterMigrate(w, c, s.snapshot, s.receipt, s.stop).0;
    MigratesIff(w, c, s.snapshot, s.receipt, s.stop);
    hide Next, FingerprintOf, AfterMigrate, RegisteredSchema, ValidDb, AddedKeys, SameLogical, Schema, Exists;
    j := 0;
    if s.snapshot in w.files && w.files[s.snapshot].SnapshotDoc? {
      j := SnapshotHasOrigin(worlds, c, steps, i, s.snapshot);
      RunValid(worlds, c, steps, j);
      CopiedValid(worlds, c, steps, j);
      FingerprintCanonical(w.db, Copied(worlds[j], steps[j]));
    }
  }

  // ---- Snapshots -----------------------------------------------------------

  /** When exactly a snapshot is accepted: two new distinct files, a sound database, and nothing
      logical written by another connection before or after the copy, which is sound too. */
  lemma SnapshotAcceptedIff(w: World, backup: Path, receipt: Path, early: Option<Db>, late: Option<Db>, stop: Stop)
    requires ValidDb(w.db)
    requires early.Some? ==> ValidDb(early.value)
    requires late.Some? ==> ValidDb(late.value)
    ensures var (w', outcome) := AfterSnapshot(w, backup, receipt, early, late, stop);
            var copied := Overwritten(w.db, early);
            && (outcome == Done
                <==> && Free(w, backup) && Free(w, receipt) && backup != receipt && stop != TornReceipt
                     && w.db.sound && copied.sound
                     && SameLogical(w.db, copied) && SameLogical(w.db, Overwritten(copied, late)))
            && (outcome == Done ==>
                  w' == w.(db := Overwritten(copied, late), backups := w.backups[backup := copied], files := w'.files)
                  && w'.files.Keys == w.files.Keys + {receipt} && forall p :: p in w.files ==> w'.files[p] == w.files[p])
            && (outcome != Done ==> forall p :: p in w'.files && w'.files[p].SnapshotDoc? ==>
                  p in w.files && w'.files[p] == w.files[p])
  {
    hide FingerprintOf, SameLogical, ValidDb;
    var copied := Overwritten(w.db, early);
    FingerprintCanonical(w.db, Overwritten(copied, late));
    FingerprintCanonical(w.db, copied);
  }

  // ---- Reconciling ---------------------------------------------------------

  /** A prepared receipt of the file in place, and a new path for the audit. */
  predicate Awaits(w: World, path: Path, audit: Option<Path>) {
    && path in w.files && w.files[path].MigrationDoc? && w.files[path].state == Prepared
    && w.files[path].source == w.source && w.files[path].fileId == w.fileId
    && (audit.Some? ==> Free(w, audit.value))
  }

  /** The audit file says what was seen and names the verdict. */
  predicate Audited(w: World, doc: Doc, about: Path, verdict: Verdict) {
    doc == AuditDoc(w.source, w.fileId, about, Logical(w.db), verdict)
  }

  /** The same receipt in this state. */
  predicate Finalised(was: Doc, now: Doc, state: CommitState) {
    && was.MigrationDoc? && now.MigrationDoc? && now.state == state
    && now.source == was.source && now.fileId == was.fileId && now.before == was.before && now.after == was.after
  }

  /** The world after a verdict on the receipt: it is finalised or stays, the audit, if asked for,
      records the verdict, and nothing else changes. */
  predicate Settled(w: World, w': World, path: Path, audit: Option<Path>, verdict: Verdict) {
    && w' == w.(files := w'.files)
    && path in w.files && path in w'.files
    && (match verdict
        case AlreadyApplied => Finalised(w.files[path], w'.files[path], Committed)
        case NotApplied => Finalised(w.files[path], w'.files[path], Aborted)
        case Unknown => w'.files[path] == w.files[path])
    && w'.files.Keys == w.files.Keys + (if audit.Some? then {audit.value} else {})
    && (audit.Some? ==> Audited(w, w'.files[audit.value], path, verdict))
    && forall p :: p in w.files && p != path ==> w'.files[p] == w.files[p]
  }

  lemma ReconcileSettles(w: World, path: Path, audit: Option<Path>)
    ensures var (w', verdict) := AfterReconcile(w, path, audit);
            if Awaits(w, path, audit) then
              Reconcilable(w, path) && verdict == Some(Classify(w, path)) && Settled(w, w', path, audit, verdict.value)
            else w' == w && verdict == None
  {
    hide FingerprintOf, Classify;
  }

  /** What a reconciliation does over every run.  It is refused, and changes nothing, unless the
      receipt awaits one.  Then the receipt, whose migration is at j, becomes committed exactly if
      the database is logically what that migration would commit, aborted exactly if it is what
      the migration found, and otherwise stays as it is; the audit records the same, and
      nothing else changes. */
  lemma ReconcileDecides(worlds: seq<World>, c: Registered, steps: seq<Step>, i: nat) returns (j: nat)
    requires IsRun(worlds, c, steps) && i < |steps| && steps[i].DoReconcile?
    ensures var s, w, w' := steps[i], worlds[i], worlds[i + 1];
            var verdict := AfterReconcile(w, s.path, s.audit).1;
            if !Awaits(w, s.path, s.audit) then w' == w && verdict == None
            else
              && j < i && steps[j].DoMigrate? && steps[j].receipt == s.path
              && verdict == Some(if SameLogical(w.db, Migrated(worlds[j].db, c)) then AlreadyApplied
                                 else if SameLogical(w.db, worlds[j].db) then NotApplied
                                 else Unknown)
              && Settled(w, w', s.path, s.audit, verdict.value)
  {
    var s, w := steps[i], worlds[i];
    assert worlds[i + 1] == AfterReconcile(w, s.path, s.audit).0;
    j := 0;
    ReconcileSettles(w, s.path, s.audit);
    hide FingerprintOf, SameLogical, Migrated, IsRun, Classify, Settled, AfterReconcile, Awaits, Next, StartedFrom;
    if Awaits(w, s.path, s.audit) {
      j := VerdictIsLogical(worlds, c, steps, i, s.path);
      StartIsMigrate(worlds[j], c, steps[j], s.path, w.files[s.path]);
    }
  }

  lemma StartIsMigrate(w: World, c: Registered, s: Step, path: Path, doc: Doc)
    requires StartedFrom(w, c, s, path, doc)
    ensures s.DoMigrate? && s.receipt == path
  {
  }

  // ---- Rolling back --------------------------------------------------------

  lemma RollbackChanges(w: World, migration: Path, receipt: Path, stop: Stop)
    ensures AfterRollback(w, migration, receipt, stop).0.db
         == if RollbackAdmitted(w, migration, receipt) && Commits(stop) then Restored(w.db) else w.db
  {
    hide RollbackOpens, Restored, Droppable, RollbackReceipt, Logical;
    if RollbackAdmitted(w, migration, receipt) {
      AdmittedOpens(w, migration, receipt);
      if InDdl(stop) { DroppableMonotone(w.db, stop.n, |ADDED|); }
    }
  }

  /** A rollback of the migration that started from `origin`. */
  lemma RollsBackIff(w: World, c: Registered, origin: World, migration: Path, receipt: Path, stop: Stop)
    requires ValidDb(w.db) && ValidDb(origin.db) && AddedAbsent(origin.db)
    requires migration in w.files && w.files[migration] == MigrationReceipt(origin, c, Committed)
    requires w.source == origin.source
    ensures var w' := AfterRollback(w, migration, receipt, stop).0;
            && (w'.db != w.db
                <==> && w.fileId == origin.fileId && Free(w, receipt) && w.db.sound && Commits(stop)
                     && SameLogical(w.db, Migrated(origin.db, c)))
            && (w'.db != w.db ==> SameLogical(w'.db, origin.db))
  {
    RollbackAcceptedIff(w, c, origin, migration, receipt);
    RollbackChanges(w, migration, receipt, stop);
    hide RollbackAdmitted, AfterRollback, SameLogical, Migrated, Restored, ValidDb, Exists, MigrationReceipt, AddedAbsent, Commits;
    if RollbackAdmitted(w, migration, receipt) {
      RestoreUndoes(w.db, origin.db, c);
      RestoredApart(w.db, origin.db, c);
    }
  }

  /** Over every run, when exactly a rollback step commits: a committed receipt of the file in
      place, a new receipt, a sound database that is logically what the migration at j
      committed, and no stop before COMMIT.  Then the logical database is the one that
      migration found. */
  lemma RollbackStepIff(worlds: seq<World>, c: Registered, steps: seq<Step>, i: nat) returns (j: nat)
    requires IsRun(worlds, c, steps) && i < |steps| && steps[i].DoRollback?
    ensures var s, w := steps[i], worlds[i];
            var ours := s.migration in w.files && w.files[s.migration].MigrationDoc?;
            && (ours ==> j < i && steps[j].DoMigrate? && steps[j].receipt == s.migration)
            && (worlds[i + 1].db != w.db
                <==> && ours && w.files[s.migration].state == Committed && w.files[s.migration].fileId == w.fileId
                     && Free(w, s.receipt) && w.db.sound && Commits(s.stop)
                     && SameLogical(w.db, Migrated(worlds[j].db, c)))
            && (worlds[i + 1].db != w.db ==> SameLogical(worlds[i + 1].db, worlds[j].db))
  {
    var s, w := steps[i], worlds[i];
    assert worlds[i + 1] == AfterRollback(w, s.migration, s.receipt, s.stop).0;
    j := 0;
    if !(s.migration in w.files && w.files[s.migration].MigrationDoc? && w.files[s.migration].state == Committed) {
      NotCommittedStays(w, s.migration, s.receipt, s.stop);
    }
    hide FingerprintOf, SameLogical, Migrated, ValidDb, Next, Exists, AfterRollback, Commits;
    if s.migration in w.files && w.files[s.migration].MigrationDoc? {
      j := ReceiptHasOrigin(worlds, c, steps, i, s.migration);
      RunValid(worlds, c, steps, i);
      RunValid(worlds, c, steps, j);
      AdmittedAbsent(worlds[j], c, steps[j].snapshot, steps[j].receipt);
      if w.files[s.migration].state == Committed {
        RollsBackIff(w, c, worlds[j], s.migration, s.receipt, s.stop);
      }
    }
  }

  /** Without a committed receipt of this database and file, or with a row in one of the new tables,
      a rollback is refused. */
  lemma NotCommittedStays(w: World, migration: Path, receipt: Path, stop: Stop)
    requires !(&& migration in w.files && w.files[migration].MigrationDoc? && w.files[migration].state == Committed
               && w.files[migration].source == w.source && w.files[migration].fileId == w.fileId
               && forall name :: name in AddedTables() ==> name in w.db.rows && w.db.rows[name] == [])
    ensures AfterRollback(w, migration, receipt, stop) == (w, Refused)
  {
    hide FingerprintOf, Restored, Droppable, Exists;
  }

  lemma RestoredApart(db: Db, origin: Db, c: Registered)
    requires SameLogical(db, Migrated(origin, c))
    ensures Restored(db) != db
  {
    assert ADDED[0] in AddedKeys();
    assert ADDED[0] in Schema(Migrated(origin, c)) && ADDED[0] in Schema(db);
  }

  /** A prepared rollback receipt of the file in place, and a new path for the audit. */
  predicate RollbackAwaits(w: World, path: Path, audit: Path) {
    && path in w.files && w.files[path].RollbackDoc? && w.files[path].state == Prepared
    && w.files[path].source == w.source && w.files[path].fileId == w.fileId && Free(w, audit)
  }

  /** What reconciling a rollback does over every run: it is refused and changes nothing unless
      the receipt awaits it; then it only adds an audit, whose verdict compares the database with
      the one the migration at m found and the one it committed. */
  lemma RollbackReconcileDecides(worlds: seq<World>, c: Registered, steps: seq<Step>, i: nat) returns (m: nat)
    requires IsRun(worlds, c, steps) && i < |steps| && steps[i].DoReconcileRollback?
    ensures var s, w, w' := steps[i], worlds[i], worlds[i + 1];
            var verdict := AfterReconcileRollback(w, s.path, s.about).1;
            if !RollbackAwaits(w, s.path, s.about) then w' == w && verdict == None
            else
              && m < i && steps[m].DoMigrate? && verdict.Some?
              && s.about in w'.files && Audited(w, w'.files[s.about], s.path, verdict.value)
              && w' == w.(files := w.files[s.about := w'.files[s.about]])
              && verdict.value == (if SameLogical(w.db, worlds[m].db) then AlreadyApplied
                                   else if SameLogical(w.db, Migrated(worlds[m].db, c)) then NotApplied
                                   else Unknown)
  {
    var s, w := steps[i], worlds[i];
    assert worlds[i + 1] == AfterReconcileRollback(w, s.path, s.about).0;
    m := 0;
    RollbackReconcileAudits(w, s.path, s.about);
    hide FingerprintOf, SameLogical, Migrated, IsRun, ClassifyRollback, AfterReconcileRollback, RollbackAwaits, Audited, Next,
      RolledFrom;
    if RollbackAwaits(w, s.path, s.about) {
      var j;
      m, j := RollbackVerdictIsLogical(worlds, c, steps, i, s.path);
    }
  }

  lemma RollbackReconcileAudits(w: World, path: Path, audit: Path)
    ensures var (w', verdict) := AfterReconcileRollback(w, path, audit);
            if RollbackAwaits(w, path, audit) then
              && RollbackReconcilable(w, path) && verdict == Some(ClassifyRollback(w, path))
              && audit in w'.files && Audited(w, w'.files[audit], path, verdict.value)
              && w' == w.(files := w.files[audit := w'.files[audit]])
            else w' == w && verdict == None
  {
    hide FingerprintOf, ClassifyRollback;
  }
}
