/** The four-file personal script sync: bound inputs, all four backups, then four atomic
    replacements with a receipt after each.  Writes may fail or store something else. */
module PersonalSync {
  import opened Wrappers

  type Bytes = string

  /** SHA-256 stands for an injective map. */
  datatype Sha = Sha(content: Bytes)

  const FILES: seq<string> := [
    "prepare-product-publication/scripts/prepare_product_publication.py",
    "prepare-product-images/scripts/prepare_product_images.py",
    "prepare-product-images/scripts/run_automated_image_qa.py",
    "delist-products-by-sku/scripts/delist_products_by_sku.py"]

  lemma FilesDistinct()
    ensures forall i, j :: 0 <= i < j < |FILES| ==> FILES[i] != FILES[j]
  {
    assert |FILES[0]| == 66 && |FILES[1]| == 56 && |FILES[2]| == 56 && |FILES[3]| == 56;
  }

  datatype Binding = Binding(source: Sha, before: Sha)

  /** A resolved absolute directory, name by name. */
  type Dir = seq<string>

  predicate Overlap(a: Dir, b: Dir) {
    a <= b || b <= a
  }

  /** The plan, as its bytes are read. */
  datatype Plan = Plan(sourceRoot: Dir, personalRoot: Dir, backupRoot: Dir,
                       files: map<string, Binding>, dependencies: map<string, Sha>)

  /** What a write comes to: the bytes it was given, other bytes, a failure that leaves some
      bytes behind, or one that never touches the file. */
  datatype Write = Faithful | Corrupt(other: Bytes) | Fails(left: Bytes) | Blocked

  /** The write raises an error. */
  predicate Raises(w: Write) {
    w.Fails? || w.Blocked?
  }

  function Stored(w: Write, data: Bytes): Bytes
    requires !w.Blocked?
  {
    match w
    case Faithful => data
    case Corrupt(other) => other
    case Fails(left) => left
  }

  datatype SyncStatus = BackedUp | FourInstalled

  /** The receipt on disk: Unreadable when its write stored anything but the record. */
  datatype Receipt = NoReceipt | Unreadable | Saved(status: SyncStatus, changed: seq<string>)

  datatype Outcome = Refused | Preflighted | Stopped | Done

  predicate AllPresent(tree: map<string, Bytes>) {
    forall i :: 0 <= i < |FILES| ==> FILES[i] in tree
  }

  /** The first n destinations hold their source, the others their original. */
  ghost predicate Replaced(original: map<string, Bytes>, source: map<string, Bytes>, now: map<string, Bytes>, n: nat)
    requires AllPresent(original) && AllPresent(source)
  {
    && n <= |FILES|
    && now.Keys == original.Keys
    && (forall f :: f in original && f !in FILES ==> now[f] == original[f])
    && (forall i :: 0 <= i < |FILES| ==> now[FILES[i]] == if i < n then source[FILES[i]] else original[FILES[i]])
  }

  lemma NotYetReplaced(original: map<string, Bytes>, source: map<string, Bytes>, now: map<string, Bytes>, i: nat)
    requires AllPresent(original) && AllPresent(source) && i < |FILES|
    requires Replaced(original, source, now, i)
    ensures FILES[i] in now && now[FILES[i]] == original[FILES[i]]
  {
  }

  lemma ReplacedNext(original: map<string, Bytes>, source: map<string, Bytes>, now: map<string, Bytes>, i: nat)
    requires AllPresent(original) && AllPresent(source) && i < |FILES|
    requires Replaced(original, source, now, i)
    ensures Replaced(original, source, now[FILES[i] := source[FILES[i]]], i + 1)
  {
    FilesDistinct();
  }

  ghost predicate AllBackedUp(original: map<string, Bytes>, backup: map<string, Bytes>) {
    forall i :: 0 <= i < |FILES| ==> FILES[i] in original && FILES[i] in backup && backup[FILES[i]] == original[FILES[i]]
  }

  /** What holds wherever the sync stops: n files are replaced; one is only once all four
      originals are saved and a receipt was written; and a readable receipt lists the
      replaced files in order, missing the last one at most. */
  ghost predicate Recoverable(original: map<string, Bytes>, source: map<string, Bytes>, now: map<string, Bytes>,
                              backup: map<string, Bytes>, receipt: Receipt, n: nat)
    requires AllPresent(original) && AllPresent(source)
  {
    && Replaced(original, source, now, n)
    && (n > 0 ==> AllBackedUp(original, backup) && receipt != NoReceipt)
    && (receipt.Saved? ==>
          && |receipt.changed| <= n <= |receipt.changed| + 1
          && receipt.changed == FILES[..|receipt.changed|]
          && (receipt.status == FourInstalled ==> n == |receipt.changed| == |FILES|))
  }

  /** Copying the backups over the destinations. */
  function Restored(now: map<string, Bytes>, backup: map<string, Bytes>): map<string, Bytes> {
    map f | f in now :: if f in FILES && f in backup then backup[f] else now[f]
  }

  /** The rollback the receipt describes gives back every original byte. */
  lemma RestoreGivesOriginals(original: map<string, Bytes>, source: map<string, Bytes>, now: map<string, Bytes>,
                              backup: map<string, Bytes>, receipt: Receipt, n: nat)
    requires AllPresent(original) && AllPresent(source)
    requires Recoverable(original, source, now, backup, receipt, n) && n > 0
    ensures Restored(now, backup) == original
  {
    forall f | f in original ensures Restored(now, backup)[f] == original[f] {
      if f in FILES {
        var i :| 0 <= i < |FILES| && FILES[i] == f;
      }
    }
  }

  class Sync {
    const planBytes: Bytes
    const approved: Sha
    /** What the plan's bytes read as, if they are a complete plan. */
    const reading: Option<Plan>
    /** The four files, and any others, below the source root. */
    const source: map<string, Bytes>
    const runtime: map<string, Bytes>
    /** Whether ast.parse accepts a source. */
    const parses: Bytes -> bool
    const writes: nat -> Write
    var cursor: nat
    var personal: map<string, Bytes>
    var backup: map<string, Bytes>
    var backupExists: bool
    var receipt: Receipt
    /** The write that left the receipt as it is. */
    ghost var receiptWrite: nat

    constructor (planBytes: Bytes, approved: Sha, reading: Option<Plan>, source: map<string, Bytes>,
                 runtime: map<string, Bytes>, parses: Bytes -> bool, personal: map<string, Bytes>,
                 writes: nat -> Write, backupExists: bool)
      ensures this.planBytes == planBytes && this.approved == approved && this.reading == reading
      ensures this.source == source && this.runtime == runtime && this.parses == parses
      ensures this.personal == personal && this.writes == writes && this.backupExists == backupExists
      ensures receipt == NoReceipt && backup == map[]
    {
      this.planBytes, this.approved, this.reading := planBytes, approved, reading;
      this.source, this.runtime, this.parses, this.writes := source, runtime, parses, writes;
      this.personal, this.backupExists, cursor, receipt, backup := personal, backupExists, 0, NoReceipt, map[];
    }

    /** A binding holds of the source and of the given destination, and the source parses. */
    predicate BoundFile(plan: Plan, f: string, found: map<string, Bytes>) {
      && f in plan.files && f in source && f in found
      && Sha(source[f]) == plan.files[f].source && Sha(found[f]) == plan.files[f].before
      && parses(source[f])
    }

    predicate AllBound(plan: Plan, found: map<string, Bytes>) {
      forall i :: 0 <= i < |FILES| ==> BoundFile(plan, FILES[i], found)
    }

    /** The checks before anything is written. */
    predicate Admitted(found: map<string, Bytes>) {
      && Sha(planBytes) == approved
      && reading.Some?
      && var plan := reading.value;
      && !Overlap(plan.sourceRoot, plan.personalRoot)
      && !Overlap(plan.sourceRoot, plan.backupRoot)
      && !Overlap(plan.personalRoot, plan.backupRoot)
      && plan.files.Keys == (set f | f in FILES)
      && AllBound(plan, found)
      && forall d :: d in plan.dependencies ==> d in runtime && Sha(runtime[d]) == plan.dependencies[d]
    }

    /** What the plan approves: the plan itself, three roots apart, and each of the four files and
        the dependencies by its digest. */
    ghost predicate Approved(plan: Plan, found: map<string, Bytes>) {
      && approved == Sha(planBytes) && reading == Some(plan)
      && !(plan.sourceRoot <= plan.personalRoot) && !(plan.personalRoot <= plan.sourceRoot)
      && !(plan.sourceRoot <= plan.backupRoot) && !(plan.backupRoot <= plan.sourceRoot)
      && !(plan.personalRoot <= plan.backupRoot) && !(plan.backupRoot <= plan.personalRoot)
      && (forall f :: f in FILES <==> f in plan.files)
      && (forall f :: f in FILES ==>
            f in source && f in found && plan.files[f] == Binding(Sha(source[f]), Sha(found[f])) && parses(source[f]))
      && (forall d :: d in plan.dependencies ==> d in runtime && plan.dependencies[d] == Sha(runtime[d]))
    }

    /** Nothing else is admitted, and everything approved is. */
    lemma AdmittedIff(found: map<string, Bytes>)
      ensures Admitted(found) <==> exists plan :: Approved(plan, found)
    {
      hide FILES;
      if Admitted(found) {
        assert Approved(reading.value, found);
      }
      if plan :| Approved(plan, found) {
        assert plan.files.Keys == set f | f in FILES;
        assert AllBound(plan, found);
      }
    }

    method Attempt() returns (w: Write)
      modifies this`cursor
      ensures w == writes(old(cursor)) && cursor == old(cursor) + 1
    {
      w := writes(cursor);
      cursor := cursor + 1;
    }

    /** The latest write went wrong. */
    predicate WentWrong()
      reads this
    {
      cursor > 0 && !writes(cursor - 1).Faithful?
    }

    /** The receipt is this record, exactly if the write that left it stored it. */
    ghost predicate Records(status: SyncStatus, changed: seq<string>)
      reads this
    {
      receipt == if writes(receiptWrite).Faithful? then Saved(status, changed) else Unreadable
    }

    /** The receipt is never read back: a write that stores other bytes goes unnoticed. */
    method SaveReceipt(status: SyncStatus, changed: seq<string>) returns (ok: bool)
      modifies this`cursor, this`receipt, this`receiptWrite
      ensures cursor == old(cursor) + 1
      ensures ok <==> !Raises(writes(old(cursor)))
      ensures if writes(old(cursor)).Blocked? then receipt == old(receipt) && receiptWrite == old(receiptWrite)
              else Records(status, changed) && receiptWrite == old(cursor)
    {
      var w := Attempt();
      if !w.Blocked? {
        receiptWrite := cursor - 1;
        receipt := if w.Faithful? then Saved(status, changed) else Unreadable;
      }
      return !Raises(w);
    }

    /** Saves one original and reads it back. */
    method BackUpOne(plan: Plan, f: string) returns (ok: bool)
      requires BoundFile(plan, f, personal)
      modifies this`cursor, this`backup
      ensures backup.Keys == old(backup).Keys || backup.Keys == old(backup).Keys + {f}
      ensures forall g :: g in old(backup) && g != f ==> backup[g] == old(backup)[g]
      ensures ok ==> f in backup && backup[f] == personal[f]
      ensures !ok ==> WentWrong()
    {
      var w := Attempt();
      if w.Blocked? {
        return false;
      }
      var stored := Stored(w, personal[f]);
      backup := backup[f := stored];
      ok := !w.Fails? && Sha(stored) == plan.files[f].before;
    }

    /** Saves all four originals, each read back and compared with its binding. */
    method BackUpAll(plan: Plan) returns (ok: bool)
      requires AllBound(plan, personal) && backup == map[]
      modifies this`cursor, this`backup, this`backupExists
      ensures ok ==> AllBackedUp(personal, backup)
      ensures !ok ==> WentWrong()
    {
      backupExists := true;
      FilesDistinct();
      hide FILES;
      var i := 0;
      while i < |FILES|
        invariant 0 <= i <= |FILES|
        invariant forall j :: 0 <= j < i ==> FILES[j] in backup && backup[FILES[j]] == personal[FILES[j]]
      {
        assert BoundFile(plan, FILES[i], personal);
        ok := BackUpOne(plan, FILES[i]);
        if !ok { return; }
        i := i + 1;
      }
      assert forall j :: 0 <= j < |FILES| ==> BoundFile(plan, FILES[j], personal);
      return true;
    }

    /** The temporary file is read back before it takes the destination's place. */
    method ReplaceOne(plan: Plan, f: string) returns (ok: bool)
      requires BoundFile(plan, f, personal)
      modifies this`cursor, this`personal
      ensures personal == if ok then old(personal)[f := source[f]] else old(personal)
      ensures !ok ==> WentWrong()
    {
      var w := Attempt();
      if Raises(w) {
        return false;
      }
      var temp := Stored(w, source[f]);
      if Sha(temp) != plan.files[f].source {
        return false;
      }
      var move := Attempt();
      if Raises(move) {
        return false;
      }
      personal := personal[f := temp];
      return true;
    }

    /** Before the i-th replacement: the first i files are replaced and recorded. */
    ghost predicate Going(plan: Plan, original: map<string, Bytes>, i: nat)
      reads this
    {
      && AllPresent(source) && AllPresent(original) && AllBound(plan, original)
      && i <= |FILES| && Records(BackedUp, FILES[..i])
      && AllBackedUp(original, backup)
      && Recoverable(original, source, personal, backup, receipt, i)
    }

    /** Where a sync may stop, with n files replaced.  The receipt can be read exactly if the
        write that left it stored it. */
    ghost predicate Left(original: map<string, Bytes>, n: nat)
      reads this
    {
      && AllPresent(source) && AllPresent(original)
      && Recoverable(original, source, personal, backup, receipt, n)
      && (receipt != NoReceipt ==> (receipt.Saved? <==> writes(receiptWrite).Faithful?))
    }

    /** Every file is replaced; the last write was the receipt's, and it says so exactly if that
        write stored it. */
    ghost predicate Finished(n: nat)
      reads this
    {
      n == |FILES| && cursor > 0 && receiptWrite == cursor - 1 && Records(FourInstalled, FILES)
    }

    /** One round of the replace loop: the checks again, the replacement, the receipt. */
    method Round(plan: Plan, i: nat, ghost original: map<string, Bytes>) returns (ok: bool, ghost n: nat)
      requires i < |FILES| && Going(plan, original, i)
      modifies this`cursor, this`personal, this`receipt, this`receiptWrite
      ensures Left(original, n)
      ensures ok ==> n == i + 1 && Going(plan, original, i + 1)
      ensures !ok ==> WentWrong()
    {
      hide Replaced, FILES, BoundFile;
      n := i;
      var f := FILES[i];
      StillBound(plan, original, i);
      ok := BoundFile(plan, f, personal);
      if !ok { return; }
      ok := ReplaceOne(plan, f);
      if !ok { return; }
      n := i + 1;
      ReplacedNext(original, source, old(personal), i);
      assert FILES[..i + 1] == FILES[..i] + [f];
      ok := SaveReceipt(BackedUp, FILES[..i + 1]);
    }

    /** The checks of a round hold as long as nothing else writes. */
    lemma StillBound(plan: Plan, original: map<string, Bytes>, i: nat)
      requires i < |FILES| && Going(plan, original, i)
      ensures BoundFile(plan, FILES[i], personal)
    {
      hide Replaced, FILES;
      NotYetReplaced(original, source, personal, i);
      assert BoundFile(plan, FILES[i], original);
    }

    /** The replacements, in order. */
    method ReplaceAll(plan: Plan, ghost original: map<string, Bytes>) returns (ok: bool, ghost n: nat)
      requires Going(plan, original, 0)
      modifies this`cursor, this`personal, this`receipt, this`receiptWrite
      ensures Left(original, n)
      ensures ok ==> Finished(n)
      ensures !ok ==> WentWrong()
    {
      var i := 0;
      n := 0;
      while i < |FILES|
        invariant 0 <= i <= |FILES| && n == i && Going(plan, original, i)
      {
        hide Going, Left, FILES;
        ok, n := Round(plan, i, original);
        if !ok { return; }
        i := i + 1;
      }
      assert FILES[..|FILES|] == FILES;
      hide Replaced, FILES, AllBackedUp;
      ok := SaveReceipt(FourInstalled, FILES);
    }

    /** Nothing is replaced yet, whatever has been backed up. */
    lemma NothingReplaced(plan: Plan)
      requires AllBound(plan, personal)
      ensures AllPresent(source) && AllPresent(personal)
      ensures Replaced(personal, source, personal, 0)
    {
      assert forall i :: 0 <= i < |FILES| ==> BoundFile(plan, FILES[i], personal);
    }

    /** The backup, its receipt, and the replacements. */
    method Install(plan: Plan) returns (ok: bool, ghost n: nat)
      requires AllBound(plan, personal) && backup == map[] && receipt == NoReceipt
      modifies this
      ensures Left(old(personal), n)
      ensures ok ==> Finished(n)
      ensures !ok ==> WentWrong()
    {
      n := 0;
      NothingReplaced(plan);
      ghost var original := personal;
      hide FILES, Replaced, AllBound, AllBackedUp, AllPresent;
      ok := BackUpAll(plan);
      if !ok { return; }
      ok := SaveReceipt(BackedUp, []);
      if !ok { return; }
      assert FILES[..0] == [];
      ok, n := ReplaceAll(plan, original);
    }

    /** main.  Without --apply nothing is written.  With it, and nothing else writing, the sync is
        refused, done, or stopped by a write that went wrong; `n` is how many files were
        replaced, and every state it may be left in is recoverable. */
    method Apply(apply: bool) returns (outcome: Outcome, ghost n: nat)
      requires backup == map[] && receipt == NoReceipt
      modifies this
      ensures outcome == Refused <==> !Admitted(old(personal)) || (apply && old(backupExists))
      ensures outcome == Preflighted <==> Admitted(old(personal)) && !apply
      ensures outcome == Refused || outcome == Preflighted ==>
                personal == old(personal) && backup == map[] && receipt == NoReceipt
      ensures outcome == Stopped || outcome == Done ==> Left(old(personal), n)
      ensures outcome == Done ==> Finished(n)
      ensures outcome == Stopped ==> WentWrong()
      ensures outcome != Refused ==> exists plan :: Approved(plan, old(personal))
      ensures (exists plan :: Approved(plan, old(personal))) && !(apply && old(backupExists)) ==> outcome != Refused
    {
      n := 0;
      AdmittedIff(personal);
      hide Approved;
      if !Admitted(personal) || (apply && backupExists) {
        return Refused, n;
      }
      if !apply {
        return Preflighted, n;
      }
      hide Left, FILES, AllBound;
      var ok;
      ok, n := Install(reading.value);
      outcome := if ok then Done else Stopped;
    }
  }
}
