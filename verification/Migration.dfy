/** The four-object schema migration of the operations task ledger: snapshot, migrate,
    reconcile, rollback and reconcile-rollback over one database file and a directory
    of receipts.  Each operation says what it does to the whole world, wherever it is
    interrupted; MigrationRuns.dfy proves what every run of them keeps. */
module Migration {
  import opened Fingerprints
  import opened Wrappers

  // ---- The added objects ---------------------------------------------------

  const REQUESTS := "workbench_profit_requests"
  const IDENTITY := "workbench_review_identity"

  const ADDED: seq<Key> := [
    Key(Table, REQUESTS),
    Key(Trigger, "workbench_profit_requests_no_update"),
    Key(Trigger, "workbench_profit_requests_no_delete"),
    Key(Table, IDENTITY)]

  function AddedKeys(): set<Key> {
    {ADDED[0], ADDED[1], ADDED[2], ADDED[3]}
  }

  function AddedTables(): set<string> {
    {REQUESTS, IDENTITY}
  }

  /** BASE_DESIRED and DESIRED: the registered statements of the two schema sources. */
  datatype Contract = Contract(base: map<Key, string>, desired: map<Key, string>)

  type Registered = c: Contract | AddedKeys() <= c.desired.Keys
    witness Contract(map[], map k | k in {ADDED[0], ADDED[1], ADDED[2], ADDED[3]} :: "")

  function AddedSql(c: Registered): map<Key, string> {
    map k | k in AddedKeys() :: c.desired[k]
  }

  // ---- DDL -----------------------------------------------------------------

  /** CREATE fails on an object that exists; a new table is empty. */
  function Create(db: Db, k: Key, sql: string): Option<Db> {
    if k in db.objects then None
    else Some(db.(objects := db.objects[k := sql],
                  rows := if k.kind.Table? then db.rows[k.name := []] else db.rows))
  }

  function Drop(db: Db, k: Key): Option<Db> {
    if k !in db.objects then None
    else Some(db.(objects := db.objects - {k},
                  rows := if k.kind.Table? then db.rows - {k.name} else db.rows))
  }

  /** The database with exactly the four objects more, and the two new tables empty. */
  function Migrated(db: Db, c: Registered): Db {
    db.(objects := db.objects + AddedSql(c), rows := db.rows + map[REQUESTS := [], IDENTITY := []])
  }

  function Restored(db: Db): Db {
    db.(objects := db.objects - AddedKeys(), rows := db.rows - AddedTables())
  }

  predicate AddedAbsent(db: Db) {
    db.objects.Keys !! AddedKeys()
  }

  function PreflightNames(c: Registered): set<Key> {
    (c.base + c.desired).Keys - AddedKeys()
  }

  /** Only registered objects, none of the four, and every registered text as expected. */
  predicate Preflight(db: Db, c: Registered) {
    var actual := Schema(db);
    var expected := c.base + c.desired;
    && actual.Keys <= PreflightNames(c)
    && (forall k :: k in ADDED ==> k !in actual)
    && (forall k :: k in PreflightNames(c) ==> k in actual && actual[k] == Sql(expected[k]))
  }

  // ---- The world -----------------------------------------------------------

  type Path = string

  datatype CommitState = Prepared | Committed | Aborted

  datatype Verdict = AlreadyApplied | NotApplied | Unknown

  /** The bytes of a backup file determine its content. */
  datatype FileSha = FileSha(content: Db)

  /** A receipt file.  `Torn` is one whose writer died before its text was complete. */
  datatype Doc =
    | Torn
    | SnapshotDoc(source: Path, fileId: int, backup: Path, backupSha: FileSha, logical: Fingerprint)
    | MigrationDoc(source: Path, fileId: int, before: Digest, after: Fingerprint, state: CommitState)
    | RollbackDoc(source: Path, fileId: int, pre: Digest, restored: Digest, state: CommitState)
    | AuditDoc(source: Path, fileId: int, about: Path, observed: Digest, verdict: Verdict)

  function WithState(doc: Doc, state: CommitState): Doc
    requires doc.MigrationDoc?
  {
    MigrationDoc(doc.source, doc.fileId, doc.before, doc.after, state)
  }

  datatype World = World(source: Path, db: Db, fileId: int, files: map<Path, Doc>, backups: map<Path, Db>)

  predicate Exists(w: World, path: Path) {
    path == w.source || path in w.files || path in w.backups
  }

  /** Where a process dies.  The transaction it holds then rolls back. */
  datatype Stop = Never | AfterDdl(n: nat) | TornReceipt | BeforeCommit | AfterCommit

  datatype Outcome = Refused | Interrupted | Done

  // ---- What each operation does --------------------------------------------

  predicate SnapshotUsable(w: World, path: Path) {
    && path in w.files
    && var doc := w.files[path];
    && doc.SnapshotDoc?
    && doc.source == w.source
    && doc.fileId == w.fileId
    && doc.backup in w.backups
    && FileSha(w.backups[doc.backup]) == doc.backupSha
    && w.backups[doc.backup].sound
    && FingerprintOf(w.backups[doc.backup]) == doc.logical
  }

  predicate MigrationAdmitted(w: World, c: Registered, snapshot: Path, receipt: Path) {
    && SnapshotUsable(w, snapshot)
    && !Exists(w, receipt)
    && FingerprintOf(w.db) == w.files[snapshot].logical
    && w.db.sound
    && Preflight(w.db, c)
  }

  function MigrationReceipt(w: World, c: Registered, state: CommitState): Doc {
    MigrationDoc(w.source, w.fileId, Logical(w.db), FingerprintOf(Migrated(w.db, c)), state)
  }

  /** Durable intent, COMMIT, finalisation: the receipt is torn, then prepared, then the
      database changes, then the receipt is replaced.  `stop` says how far this got. */
  function Concluded(w: World, receipt: Path, prepared: Doc, committed: Doc, db: Db, stop: Stop): (World, Outcome) {
    match stop
    case TornReceipt => (w.(files := w.files[receipt := Torn]), Interrupted)
    case BeforeCommit => (w.(files := w.files[receipt := prepared]), Interrupted)
    case AfterCommit => (w.(db := db, files := w.files[receipt := prepared]), Interrupted)
    case _ => (w.(db := db, files := w.files[receipt := committed]), Done)
  }

  predicate InDdl(stop: Stop) {
    stop.AfterDdl? && 1 <= stop.n <= |ADDED|
  }

  function AfterMigrate(w: World, c: Registered, snapshot: Path, receipt: Path, stop: Stop): (World, Outcome) {
    if !MigrationAdmitted(w, c, snapshot, receipt) then (w, Refused)
    else if InDdl(stop) then (w, Interrupted)
    else Concluded(w, receipt, MigrationReceipt(w, c, Prepared), MigrationReceipt(w, c, Committed), Migrated(w.db, c), stop)
  }

  /** A complete receipt of this source that still awaits a verdict. */
  predicate Reconcilable(w: World, path: Path) {
    && path in w.files
    && var doc := w.files[path];
    && doc.MigrationDoc?
    && doc.source == w.source
    && doc.fileId == w.fileId
    && doc.state == Prepared
  }

  function Classify(w: World, path: Path): Verdict
    requires Reconcilable(w, path)
  {
    if FingerprintOf(w.db) == w.files[path].after then AlreadyApplied
    else if Logical(w.db) == w.files[path].before then NotApplied
    else Unknown
  }

  function Resolved(verdict: Verdict): CommitState {
    match verdict
    case AlreadyApplied => Committed
    case NotApplied => Aborted
    case Unknown => Prepared
  }

  function WithAudit(w: World, about: Path, verdict: Verdict, audit: Option<Path>): World {
    match audit
    case None => w
    case Some(path) =>
      w.(files := w.files[path := AuditDoc(w.source, w.fileId, about, Logical(w.db), verdict)])
  }

  function AfterReconcile(w: World, path: Path, audit: Option<Path>): (World, Option<Verdict>) {
    if !Reconcilable(w, path) || (audit.Some? && Exists(w, audit.value)) then (w, None)
    else
      var verdict := Classify(w, path);
      var audited := WithAudit(w, path, verdict, audit);
      (audited.(files := audited.files[path := WithState(w.files[path], Resolved(verdict))]), Some(verdict))
  }

  /** The checks before the first DROP. */
  predicate RollbackOpens(w: World, migration: Path, receipt: Path) {
    && migration in w.files
    && var doc := w.files[migration];
    && doc.MigrationDoc?
    && doc.source == w.source
    && doc.state == Committed
    && doc.fileId == w.fileId
    && !Exists(w, receipt)
    && Logical(w.db) != doc.before
    && FingerprintOf(w.db) == doc.after
    && (forall name :: name in AddedTables() ==> name in w.db.rows && w.db.rows[name] == [])
  }

  /** The last n of the four objects exist, so that n DROPs succeed. */
  predicate Droppable(db: Db, n: nat)
    requires n <= |ADDED|
  {
    forall k :: k in ADDED[|ADDED| - n..] ==> k in db.objects
  }

  predicate RollbackAdmitted(w: World, migration: Path, receipt: Path) {
    && RollbackOpens(w, migration, receipt)
    && Droppable(w.db, |ADDED|)
    && Logical(Restored(w.db)) == w.files[migration].before
    && w.db.sound
  }

  function RollbackReceipt(w: World, state: CommitState): Doc {
    RollbackDoc(w.source, w.fileId, Logical(w.db), Logical(Restored(w.db)), state)
  }

  function AfterRollback(w: World, migration: Path, receipt: Path, stop: Stop): (World, Outcome) {
    if !RollbackOpens(w, migration, receipt) then (w, Refused)
    else if InDdl(stop) && Droppable(w.db, stop.n) then (w, Interrupted)
    else if !RollbackAdmitted(w, migration, receipt) then (w, Refused)
    else Concluded(w, receipt, RollbackReceipt(w, Prepared), RollbackReceipt(w, Committed), Restored(w.db), stop)
  }

  predicate RollbackReconcilable(w: World, path: Path) {
    && path in w.files
    && var doc := w.files[path];
    && doc.RollbackDoc?
    && doc.source == w.source
    && doc.state == Prepared
    && doc.fileId == w.fileId
  }

  /** AlreadyApplied and NotApplied stand for ALREADY_ROLLED_BACK and ROLLBACK_NOT_APPLIED. */
  function ClassifyRollback(w: World, path: Path): Verdict
    requires RollbackReconcilable(w, path)
  {
    if Logical(w.db) == w.files[path].restored then AlreadyApplied
    else if Logical(w.db) == w.files[path].pre then NotApplied
    else Unknown
  }

  function AfterReconcileRollback(w: World, path: Path, audit: Path): (World, Option<Verdict>) {
    if !RollbackReconcilable(w, path) || Exists(w, audit) then (w, None)
    else
      var verdict := ClassifyRollback(w, path);
      (WithAudit(w, path, verdict, Some(audit)), Some(verdict))
  }

  function Overwritten(db: Db, write: Option<Db>): Db {
    if write.Some? then write.value else db
  }

  /** `early` and `late` are what another connection commits before and after the copy. */
  function AfterSnapshot(w: World, backup: Path, receipt: Path, early: Option<Db>, late: Option<Db>, stop: Stop)
    : (World, Outcome)
  {
    if Exists(w, backup) || Exists(w, receipt) || backup == receipt || !w.db.sound then (w, Refused)
    else
      var copied := Overwritten(w.db, early);
      var w' := w.(db := Overwritten(copied, late), backups := w.backups[backup := copied]);
      var doc := SnapshotDoc(w.source, w.fileId, backup, FileSha(copied), FingerprintOf(copied));
      if Logical(w.db) != Logical(w'.db) || !copied.sound || FingerprintOf(copied) != FingerprintOf(w.db) then (w', Refused)
      else if stop == TornReceipt then (w'.(files := w'.files[receipt := Torn]), Interrupted)
      else (w'.(files := w'.files[receipt := doc]), Done)
  }

  // ---- DDL facts -----------------------------------------------------------

  lemma MigratedValid(db: Db, c: Registered)
    requires ValidDb(db)
    ensures ValidDb(Migrated(db, c))
  {
  }

  lemma RestoredValid(db: Db)
    requires ValidDb(db)
    ensures ValidDb(Restored(db))
  {
  }

  /** The working copy after the first n CREATE statements. */
  function CreatedSoFar(db: Db, c: Registered, n: nat): (working: Db)
    requires n <= |ADDED|
    ensures working.userVersion == db.userVersion && working.sound == db.sound
    ensures forall k :: k in working.objects <==> k in db.objects || k in ADDED[..n]
    ensures forall k :: k in working.objects ==>
              working.objects[k] == if k in ADDED[..n] then c.desired[k] else db.objects[k]
    ensures forall name :: name in working.rows <==> name in db.rows || Key(Table, name) in ADDED[..n]
    ensures forall name :: name in working.rows ==>
              working.rows[name] == if Key(Table, name) in ADDED[..n] then [] else db.rows[name]
  {
    if n == 0 then db
    else
      var k := ADDED[n - 1];
      assert ADDED[..n] == ADDED[..n - 1] + [k];
      var working := CreatedSoFar(db, c, n - 1);
      working.(objects := working.objects[k := c.desired[k]],
               rows := if k.kind.Table? then working.rows[k.name := []] else working.rows)
  }

  lemma AddedDistinct()
    ensures forall i, j :: 0 <= i < j < |ADDED| ==> ADDED[i] != ADDED[j]
    ensures forall k :: k in ADDED <==> k in AddedKeys()
    ensures forall name :: Key(Table, name) in ADDED <==> name in AddedTables()
  {
  }

  lemma AddedIsDesired(c: Registered, n: nat)
    requires n < |ADDED|
    ensures ADDED[n] in c.desired
  {
    AddedDistinct();
    assert ADDED[n] in ADDED;
    hide ADDED;
    assert ADDED[n] in AddedKeys();
  }

  lemma NextCreated(db: Db, c: Registered, n: nat)
    requires n < |ADDED| && AddedAbsent(db)
    ensures Create(CreatedSoFar(db, c, n), ADDED[n], c.desired[ADDED[n]]) == Some(CreatedSoFar(db, c, n + 1))
  {
    AddedDistinct();
    assert ADDED[n] in ADDED;
    assert ADDED[n] !in CreatedSoFar(db, c, n).objects;
  }

  lemma ObjectsAdded(objects: map<Key, string>, working: map<Key, string>, c: Registered)
    requires forall k :: k in working <==> k in objects || k in AddedKeys()
    requires forall k :: k in working ==> working[k] == if k in AddedKeys() then c.desired[k] else objects[k]
    ensures working == objects + AddedSql(c)
  {
  }

  lemma TablesAdded(rows: map<string, seq<Row>>, working: map<string, seq<Row>>)
    requires forall name :: name in working <==> name in rows || name in AddedTables()
    requires forall name :: name in working ==> working[name] == if name in AddedTables() then [] else rows[name]
    ensures working == rows + map[REQUESTS := [], IDENTITY := []]
  {
  }

  lemma AllCreated(db: Db, c: Registered)
    ensures CreatedSoFar(db, c, |ADDED|) == Migrated(db, c)
  {
    hide CreatedSoFar;
    AddedDistinct();
    var all := ADDED[..|ADDED|];
    assert all == ADDED;
    var working := CreatedSoFar(db, c, |ADDED|);
    ObjectsAdded(db.objects, working.objects, c);
    TablesAdded(db.rows, working.rows);
  }

  /** The working copy after the last n objects have been dropped. */
  function DroppedSoFar(db: Db, n: nat): (working: Db)
    requires n <= |ADDED|
    ensures working.userVersion == db.userVersion && working.sound == db.sound
    ensures forall k :: k in working.objects <==> k in db.objects && k !in ADDED[|ADDED| - n..]
    ensures forall k :: k in working.objects ==> working.objects[k] == db.objects[k]
    ensures forall name :: name in working.rows <==> name in db.rows && Key(Table, name) !in ADDED[|ADDED| - n..]
    ensures forall name :: name in working.rows ==> working.rows[name] == db.rows[name]
  {
    if n == 0 then db
    else
      var k := ADDED[|ADDED| - n];
      assert ADDED[|ADDED| - n..] == [k] + ADDED[|ADDED| - (n - 1)..];
      var working := DroppedSoFar(db, n - 1);
      working.(objects := working.objects - {k},
               rows := if k.kind.Table? then working.rows - {k.name} else working.rows)
  }

  lemma NextToDrop(db: Db, n: nat)
    requires n < |ADDED| && Droppable(db, n)
    ensures ADDED[|ADDED| - n - 1] in DroppedSoFar(db, n).objects <==> ADDED[|ADDED| - n - 1] in db.objects
    ensures Droppable(db, n + 1) <==> ADDED[|ADDED| - n - 1] in db.objects
  {
    hide DroppedSoFar;
    AddedDistinct();
    hide ADDED;
    assert ADDED[|ADDED| - (n + 1)..] == [ADDED[|ADDED| - n - 1]] + ADDED[|ADDED| - n..];
  }

  lemma NextDropped(db: Db, n: nat)
    requires n < |ADDED| && Droppable(db, n)
    ensures Drop(DroppedSoFar(db, n), ADDED[|ADDED| - n - 1])
         == if Droppable(db, n + 1) then Some(DroppedSoFar(db, n + 1)) else None
  {
    hide Droppable;
    NextToDrop(db, n);
  }

  lemma NoneToDrop(db: Db)
    ensures Droppable(db, 0)
    ensures DroppedSoFar(db, 0) == db
  {
  }

  lemma {:induction false} DroppableMonotone(db: Db, n: nat, m: nat)
    requires n <= m <= |ADDED| && Droppable(db, m)
    ensures Droppable(db, n)
  {
    assert ADDED[|ADDED| - m..] == ADDED[|ADDED| - m..|ADDED| - n] + ADDED[|ADDED| - n..];
  }

  lemma ObjectsRemoved(objects: map<Key, string>, working: map<Key, string>)
    requires forall k :: k in working <==> k in objects && k !in AddedKeys()
    requires forall k :: k in working ==> working[k] == objects[k]
    ensures working == objects - AddedKeys()
  {
  }

  lemma TablesRemoved(rows: map<string, seq<Row>>, working: map<string, seq<Row>>)
    requires forall name :: name in working <==> name in rows && name !in AddedTables()
    requires forall name :: name in working ==> working[name] == rows[name]
    ensures working == rows - AddedTables()
  {
  }

  lemma AllDropped(db: Db)
    ensures DroppedSoFar(db, |ADDED|) == Restored(db)
  {
    hide DroppedSoFar;
    AddedDistinct();
    var all := ADDED[0..];
    assert all == ADDED;
    var working := DroppedSoFar(db, |ADDED|);
    ObjectsRemoved(db.objects, working.objects);
    TablesRemoved(db.rows, working.rows);
  }

  lemma PreflightAbsent(db: Db, c: Registered)
    requires Preflight(db, c)
    ensures AddedAbsent(db)
  {
    forall k | k in AddedKeys() ensures k !in db.objects {
      assert k in ADDED && k !in Schema(db);
    }
  }

  /** The checks after the DDL: the created texts, the old tables, the new tables. */
  predicate TextsAsDesired(working: Db, c: Registered) {
    forall k :: k in ADDED ==> k in working.objects && Sql(working.objects[k]) == Sql(c.desired[k])
  }

  predicate OldTablesKept(was: map<string, TableState>, now: map<string, TableState>) {
    forall name :: name in was ==> name in now && now[name] == was[name]
  }

  predicate NewTablesEmpty(now: map<string, TableState>) {
    forall name :: name in AddedTables() ==> name in now && now[name].rows == 0
  }

  predicate PostChecks(before: Db, working: Db, c: Registered) {
    && TextsAsDesired(working, c)
    && OldTablesKept(TableStates(before), TableStates(working))
    && NewTablesEmpty(TableStates(working))
    && working.sound
  }

  lemma OldTablesStay(db: Db, c: Registered)
    requires ValidDb(db) && AddedAbsent(db)
    ensures forall name :: name in db.rows ==>
              name in Migrated(db, c).rows && Migrated(db, c).rows[name] == db.rows[name]
  {
    assert Key(Table, REQUESTS) in AddedKeys() && Key(Table, IDENTITY) in AddedKeys();
    assert REQUESTS !in db.rows && IDENTITY !in db.rows;
  }

  lemma NewTablesStartEmpty(db: Db, c: Registered)
    ensures NewTablesEmpty(TableStates(Migrated(db, c)))
  {
    var rows := Migrated(db, c).rows;
    assert rows[REQUESTS] == [] && rows[IDENTITY] == [];
  }

  /** Under the DDL contract none of the checks after the DDL can fail. */
  lemma PostChecksHold(db: Db, c: Registered)
    requires ValidDb(db) && AddedAbsent(db) && db.sound
    ensures PostChecks(db, Migrated(db, c), c)
  {
    var working := Migrated(db, c);
    assert TextsAsDesired(working, c) by {
      AddedDistinct();
    }
    assert OldTablesKept(TableStates(db), TableStates(working)) by {
      OldTablesStay(db, c);
    }
    NewTablesStartEmpty(db, c);
  }

  // ---- The operations ------------------------------------------------------

  /** One database file, as this tool and other connections see it, with its receipts. */
  class Ledger {
    const source: Path
    var db: Db
    var fileId: int
    var files: map<Path, Doc>
    var backups: map<Path, Db>

    ghost predicate Valid()
      reads this
    {
      ValidDb(db)
    }

    function Now(): World
      reads this
    {
      World(source, db, fileId, files, backups)
    }

    constructor (source: Path, db: Db, fileId: int)
      requires ValidDb(db)
      ensures Valid()
      ensures Now() == World(source, db, fileId, map[], map[])
    {
      this.source, this.db, this.fileId := source, db, fileId;
      files, backups := map[], map[];
    }

    method Snapshot(backup: Path, receipt: Path, early: Option<Db>, late: Option<Db>, stop: Stop)
      returns (outcome: Outcome)
      requires Valid()
      requires early.Some? ==> ValidDb(early.value)
      requires late.Some? ==> ValidDb(late.value)
      modifies this
      ensures Valid()
      ensures (Now(), outcome) == AfterSnapshot(old(Now()), backup, receipt, early, late, stop)
    {
      hide FingerprintOf;
      if Exists(Now(), backup) || Exists(Now(), receipt) || backup == receipt {
        return Refused;
      }
      if !db.sound {
        return Refused;
      }
      var sourceBefore := FingerprintOf(db);
      db := Overwritten(db, early);
      var copied := db;
      backups := backups[backup := copied];
      db := Overwritten(db, late);
      var sourceAfter := FingerprintOf(db);
      if sourceBefore.logical != sourceAfter.logical {
        return Refused;
      }
      var inCopy := FingerprintOf(copied);
      if !copied.sound || inCopy != sourceBefore {
        return Refused;
      }
      if stop == TornReceipt {
        files := files[receipt := Torn];
        return Interrupted;
      }
      files := files[receipt := SnapshotDoc(source, fileId, backup, FileSha(copied), inCopy)];
      return Done;
    }

    method CreateOne(c: Registered, current: Db, index: nat) returns (next: Db)
      requires AddedAbsent(db) && index < |ADDED| && current == CreatedSoFar(db, c, index)
      ensures next == CreatedSoFar(db, c, index + 1)
    {
      hide CreatedSoFar, Create, ADDED, AddedAbsent, AddedKeys;
      AddedIsDesired(c, index);
      NextCreated(db, c, index);
      next := Create(current, ADDED[index], c.desired[ADDED[index]]).value;
    }

    /** Runs the CREATE statements on a working copy; the database itself stays. */
    method CreateObjects(c: Registered, stop: Stop) returns (working: Option<Db>)
      requires AddedAbsent(db)
      ensures working == if InDdl(stop) then None else Some(Migrated(db, c))
    {
      var current := db;
      var index := 0;
      assert current == CreatedSoFar(db, c, 0);
      hide CreatedSoFar, Create, Migrated, ADDED, AddedAbsent, AddedKeys;
      while index < |ADDED|
        invariant 0 <= index <= |ADDED|
        invariant current == CreatedSoFar(db, c, index)
        invariant InDdl(stop) ==> index < stop.n
      {
        current := CreateOne(c, current, index);
        index := index + 1;
        if stop == AfterDdl(index) {
          return None;
        }
      }
      AllCreated(db, c);
      return Some(current);
    }

    /** Runs the DROP statements, last object first, on a working copy. */
    method DropObjects(stop: Stop) returns (working: Option<Db>, outcome: Outcome)
      ensures outcome == if InDdl(stop) && Droppable(db, stop.n) then Interrupted
                         else if Droppable(db, |ADDED|) then Done else Refused
      ensures working == if outcome == Done then Some(Restored(db)) else None
    {
      hide Droppable, DroppedSoFar, Drop, Restored;
      var current := db;
      var index := 0;
      NoneToDrop(db);
      while index < |ADDED|
        invariant 0 <= index <= |ADDED|
        invariant Droppable(db, index)
        invariant current == DroppedSoFar(db, index)
        invariant stop.AfterDdl? && 1 <= stop.n <= |ADDED| ==> index < stop.n
      {
        NextDropped(db, index);
        var dropped := Drop(current, ADDED[|ADDED| - index - 1]);
        if dropped.None? {
          if InDdl(stop) && Droppable(db, stop.n) { DroppableMonotone(db, index + 1, stop.n); }
          if Droppable(db, |ADDED|) { DroppableMonotone(db, index + 1, |ADDED|); }
          return None, Refused;
        }
        current := dropped.value;
        index := index + 1;
        if stop == AfterDdl(index) {
          return None, Interrupted;
        }
      }
      AllDropped(db);
      return Some(current), Done;
    }

    /** The receipt is written, the transaction commits, the receipt is replaced. */
    method Conclude(receipt: Path, prepared: Doc, committed: Doc, working: Db, stop: Stop) returns (outcome: Outcome)
      modifies this`db, this`files
      ensures (Now(), outcome) == Concluded(old(Now()), receipt, prepared, committed, working, stop)
    {
      files := files[receipt := Torn];
      if stop == TornReceipt {
        return Interrupted;
      }
      files := files[receipt := prepared];
      assert files == old(files)[receipt := prepared];
      if stop == BeforeCommit {
        return Interrupted;
      }
      db := working;
      if stop == AfterCommit {
        return Interrupted;
      }
      files := files[receipt := committed];
      assert files == old(files)[receipt := committed];
      return Done;
    }

    method Migrate(c: Registered, snapshot: Path, receipt: Path, stop: Stop) returns (outcome: Outcome)
      requires Valid()
      modifies this
      ensures Valid()
      ensures (Now(), outcome) == AfterMigrate(old(Now()), c, snapshot, receipt, stop)
    {
      hide FingerprintOf, PostChecks, CreatedSoFar, Migrated;
      if !SnapshotUsable(Now(), snapshot) || Exists(Now(), receipt) {
        return Refused;
      }
      var before := FingerprintOf(db);
      if before != files[snapshot].logical || !db.sound || !Preflight(db, c) {
        return Refused;
      }
      PreflightAbsent(db, c);
      var working := CreateObjects(c, stop);
      if working.None? {
        return Interrupted;
      }
      MigratedValid(db, c);
      PostChecksHold(db, c);
      if !PostChecks(db, working.value, c) {
        return Refused;
      }
      var after := FingerprintOf(working.value);
      outcome := Conclude(receipt, MigrationDoc(source, fileId, before.logical, after, Prepared),
                          MigrationDoc(source, fileId, before.logical, after, Committed), working.value, stop);
    }

    method Reconcile(path: Path, audit: Option<Path>) returns (verdict: Option<Verdict>)
      requires Valid()
      modifies this`files
      ensures Valid()
      ensures (Now(), verdict) == AfterReconcile(old(Now()), path, audit)
    {
      hide FingerprintOf;
      if !Reconcilable(Now(), path) {
        return None;
      }
      var previous := files[path];
      var current := FingerprintOf(db);
      var state, classification := Prepared, Unknown;
      if current == previous.after {
        state, classification := Committed, AlreadyApplied;
      } else if current.logical == previous.before {
        state, classification := Aborted, NotApplied;
      }
      if audit.Some? {
        if Exists(Now(), audit.value) {
          return None;
        }
        files := files[audit.value := AuditDoc(source, fileId, path, current.logical, classification)];
      }
      if state != Prepared {
        files := files[path := WithState(previous, state)];
      }
      assert files == files[path := WithState(previous, state)];
      return Some(classification);
    }

    method Rollback(migration: Path, receipt: Path, stop: Stop) returns (outcome: Outcome)
      requires Valid()
      modifies this
      ensures Valid()
      ensures (Now(), outcome) == AfterRollback(old(Now()), migration, receipt, stop)
    {
      hide FingerprintOf, DroppedSoFar;
      if !RollbackOpens(Now(), migration, receipt) {
        return Refused;
      }
      var working;
      working, outcome := DropObjects(stop);
      if outcome != Done {
        return;
      }
      RestoredValid(db);
      var current, restored := Logical(db), Logical(working.value);
      if restored != files[migration].before || !working.value.sound {
        return Refused;
      }
      outcome := Conclude(receipt, RollbackDoc(source, fileId, current, restored, Prepared),
                          RollbackDoc(source, fileId, current, restored, Committed), working.value, stop);
    }

    method ReconcileRollback(path: Path, audit: Path) returns (verdict: Option<Verdict>)
      requires Valid()
      modifies this`files
      ensures Valid()
      ensures (Now(), verdict) == AfterReconcileRollback(old(Now()), path, audit)
    {
      hide FingerprintOf;
      if !RollbackReconcilable(Now(), path) {
        return None;
      }
      var current := Logical(db);
      var classification := Unknown;
      if current == files[path].restored {
        classification := AlreadyApplied;
      } else if current == files[path].pre {
        classification := NotApplied;
      }
      if Exists(Now(), audit) {
        return None;
      }
      files := files[audit := AuditDoc(source, fileId, path, current, classification)];
      return Some(classification);
    }
  }
}
