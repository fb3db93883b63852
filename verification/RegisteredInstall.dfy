/** Installing registered skills: preflight, a verified backup of every previous tree, then
    file-by-file replacement.  Any write may fail; what is proved holds wherever it does. */
module RegisteredInstall {
  import Json
  import opened Wrappers
  import opened Text
  import opened Fingerprints
  import opened Lines

  // ---- Trees and manifests -------------------------------------------------

  type Bytes = string

  /** Relative POSIX paths and the contents of the files there. */
  type Tree = map<string, Bytes>

  /** path.suffix.lower() == suffix: something of the file's own name stands before it. */
  predicate HasSuffix(path: string, suffix: string) {
    EndsWith(LowerAll(path), suffix) && |path| > |suffix| && path[|path| - |suffix| - 1] != '/'
  }

  /** Runtime caches, which no manifest lists. */
  predicate Ignored(path: string) {
    || HasSuffix(path, ".pyc") || HasSuffix(path, ".pyo")
    || Contains("/" + path, "/__pycache__/") || Contains("/" + path, "/.pytest_cache/")
  }

  predicate IsText(path: string) {
    || HasSuffix(path, ".md") || HasSuffix(path, ".py") || HasSuffix(path, ".yaml") || HasSuffix(path, ".yml")
    || HasSuffix(path, ".json")
  }

  /** CRLF and CR become LF. */
  function Newlines(s: Bytes): Bytes {
    if s == "" then ""
    else if s[0] == '\r' then
      "\n" + if |s| > 1 && s[1] == '\n' then Newlines(s[2..]) else Newlines(s[1..])
    else [s[0]] + Newlines(s[1..])
  }

  function WithoutMark(s: Bytes): Bytes {
    if s != "" && s[0] == '\U{FEFF}' then s[1..] else s
  }

  function Normal(path: string, content: Bytes): Bytes {
    if IsText(path) then Newlines(WithoutMark(content)) else content
  }

  /** No carriage return is left, and a text without one stays. */
  lemma {:induction false} NoReturnLeft(s: Bytes)
    ensures '\r' !in Newlines(s)
    ensures '\r' !in s ==> Newlines(s) == s
  {
    if s != "" {
      NoReturnLeft(s[1..]);
      if |s| > 1 { NoReturnLeft(s[2..]); }
    }
  }

  lemma OtherStays(c: char, rest: Bytes)
    requires c != '\r'
    ensures Newlines([c] + rest) == [c] + Newlines(rest)
  {
    assert ([c] + rest)[1..] == rest;
  }

  predicate IsLineEnd(end: Bytes, b: Bytes) {
    end == "\r\n" || end == "\n" || (end == "\r" && (b == "" || b[0] != '\n'))
  }

  lemma EndNormalises(end: Bytes, b: Bytes)
    requires IsLineEnd(end, b)
    ensures Newlines(end + b) == "\n" + Newlines(b)
  {
    assert (end + b)[|end|..] == b;
  }

  /** Behind a text without carriage returns, each kind of line end becomes one line feed. */
  lemma {:induction false} LineEndsNormalise(a: Bytes, end: Bytes, b: Bytes)
    requires '\r' !in a && IsLineEnd(end, b)
    ensures Newlines(a + end + b) == a + "\n" + Newlines(b)
  {
    hide Newlines, IsLineEnd;
    if a == "" {
      EndNormalises(end, b);
      assert a + end + b == end + b;
    } else {
      var rest := a[1..];
      LineEndsNormalise(rest, end, b);
      OtherStays(a[0], rest + end + b);
      assert a + end + b == [a[0]] + (rest + end + b);
      assert a + "\n" + Newlines(b) == [a[0]] + (rest + "\n" + Newlines(b));
    }
  }

  /** Which files are texts and which are caches, whatever the case of the suffix. */
  lemma SuffixTells(name: string, suffix: string)
    requires name != "" && name[|name| - 1] != '/'
    ensures LowerAll(suffix) in {".md", ".py", ".yaml", ".yml", ".json"} ==> IsText(name + suffix)
    ensures LowerAll(suffix) in {".pyc", ".pyo"} ==> Ignored(name + suffix)
  {
    SuffixSeen(name, suffix);
    hide HasSuffix, Contains, LowerAll;
  }

  lemma SuffixSeen(name: string, suffix: string)
    requires name != "" && name[|name| - 1] != '/'
    ensures HasSuffix(name + suffix, LowerAll(suffix))
  {
    assert LowerAll(name + suffix)[|name|..] == LowerAll(suffix);
  }

  /** Whatever lies in a cache folder is a cache. */
  lemma FolderTells(dir: string, name: string)
    ensures Ignored(dir + "/__pycache__/" + name) && Ignored("__pycache__/" + name)
    ensures Ignored(dir + "/.pytest_cache/" + name) && Ignored(".pytest_cache/" + name)
  {
    hide Ignored;
    InFolder("", "/__pycache__/", name, "__pycache__/" + name);
    InFolder("/" + dir, "/__pycache__/", name, dir + "/__pycache__/" + name);
    InFolder("", "/.pytest_cache/", name, ".pytest_cache/" + name);
    InFolder("/" + dir, "/.pytest_cache/", name, dir + "/.pytest_cache/" + name);
  }

  lemma InFolder(before: string, folder: string, name: string, path: string)
    requires folder == "/__pycache__/" || folder == "/.pytest_cache/"
    requires "/" + path == before + folder + name
    ensures Ignored(path)
  {
    assert OccursAt("/" + path, folder, |before|);
    assert Contains("/" + path, folder);
    hide HasSuffix, Contains;
  }

  type Manifest = map<string, Digest>

  function Files(tree: Tree): set<string> {
    set p | p in tree && !Ignored(p)
  }

  function ManifestOf(tree: Tree): (m: Manifest)
    ensures m.Keys == Files(tree)
  {
    map p | p in Files(tree) :: Sha256(Normal(p, tree[p]))
  }

  const SKILL := "SKILL.md"

  /** build_manifest refuses a tree without SKILL.md. */
  predicate IsSkill(tree: Tree) {
    SKILL in tree
  }

  function ManifestValue(m: Manifest): Json.Value {
    SortedObj(map p | p in m :: Json.Str(HexDigest(m[p])))
  }

  function DigestOf(m: Manifest): Digest {
    Sha256(Json.Text(ManifestValue(m)))
  }

  lemma ManifestValueInjective(a: Manifest, b: Manifest)
    requires ManifestValue(a) == ManifestValue(b)
    ensures a == b
  {
    hide SortedObj;
    var x, y := map p | p in a :: Json.Str(HexDigest(a[p])), map p | p in b :: Json.Str(HexDigest(b[p]));
    SortedObjInjective(x, y);
    assert a.Keys == x.Keys == y.Keys == b.Keys;
    forall p | p in a ensures a[p] == b[p] {
      assert x[p] == y[p];
    }
  }

  lemma ManifestValueWellFormed(m: Manifest)
    ensures Json.WellFormed(ManifestValue(m))
  {
    hide SortedObj;
    SortedObjWellFormed(map p | p in m :: Json.Str(HexDigest(m[p])));
  }

  /** The aggregate digest determines the manifest. */
  lemma DigestCanonical(a: Manifest, b: Manifest)
    ensures DigestOf(a) == DigestOf(b) <==> a == b
  {
    if DigestOf(a) == DigestOf(b) {
      ManifestValueWellFormed(a);
      ManifestValueWellFormed(b);
      hide ManifestValue;
      Json.TextUnique(ManifestValue(a), ManifestValue(b));
      ManifestValueInjective(a, b);
    }
  }

  function TreeDigest(tree: Tree): Digest {
    DigestOf(ManifestOf(tree))
  }

  /** check_parity: equal digests mean the same files with the same normalised content. */
  lemma ParityMeans(source: Tree, installed: Tree)
    ensures TreeDigest(source) == TreeDigest(installed) <==>
            Files(source) == Files(installed)
            && forall p :: p in Files(source) ==> Normal(p, source[p]) == Normal(p, installed[p])
  {
    DigestCanonical(ManifestOf(source), ManifestOf(installed));
    hide DigestOf, Normal, Ignored;
    var a, b := ManifestOf(source), ManifestOf(installed);
    if Files(source) == Files(installed) {
      assert forall p :: p in Files(source) ==> (a[p] == b[p] <==> Normal(p, source[p]) == Normal(p, installed[p]));
    }
  }

  // ---- What an installation keeps ------------------------------------------

  type Backup = (string, Digest)

  /** The installed trees, the backups, and the skills with a temporary file left beside a
      destination by a failed write.  A random name hides no file of the tree. */
  datatype World = World(dest: map<string, Tree>, history: map<Backup, Tree>, strays: set<string>)

  function TreeAt(w: World, name: string): Tree {
    if name in w.dest then w.dest[name] else map[]
  }

  /** Where the backup of a tree goes. */
  function BackupOf(name: string, tree: Tree): Backup {
    (name, TreeDigest(tree))
  }

  /** A backup from which the tree's manifest can be read again. */
  predicate Restorable(w: World, name: string, tree: Tree) {
    BackupOf(name, tree) in w.history && IsSkill(w.history[BackupOf(name, tree)])
    && TreeDigest(w.history[BackupOf(name, tree)]) == TreeDigest(tree)
  }

  /** Every file holds its old or its canonical content; none is removed; only canonical
      files appear. */
  ghost predicate OldOrCanonical(old_: Tree, now: Tree, source: Tree) {
    && (forall p :: p in old_ ==> p in now)
    && (forall p :: p in now ==>
          || (p in old_ && now[p] == old_[p])
          || (p in Files(source) && now[p] == source[p]))
  }

  /** What holds of one skill at any point of a run that began at `before`. */
  ghost predicate Protected(before: World, now: World, name: string, source: Tree) {
    && OldOrCanonical(TreeAt(before, name), TreeAt(now, name), source)
    && (TreeAt(now, name) != TreeAt(before, name) && TreeAt(before, name) != map[]
        ==> BackedUp(before, now, name, TreeAt(before, name)))
  }

  /** Restorable, and byte for byte unless the backup is older than the run. */
  ghost predicate BackedUp(before: World, now: World, name: string, tree: Tree) {
    && Restorable(now, name, tree)
    && (BackupOf(name, tree) !in before.history ==> now.history[BackupOf(name, tree)] == tree)
  }

  /** Backups that exist are never touched, and a complete one is restorable or exact. */
  ghost predicate HistoryKept(before: World, now: World) {
    forall b :: b in before.history ==> b in now.history && now.history[b] == before.history[b]
  }

  /** What holds of the whole installation at any point of a run. */
  ghost predicate Safe(before: World, now: World, sources: map<string, Tree>) {
    && HistoryKept(before, now)
    && (forall name :: name in sources ==> Protected(before, now, name, sources[name]))
    && (forall name :: name !in sources ==> TreeAt(now, name) == TreeAt(before, name))
  }

  lemma SafeAtStart(w: World, sources: map<string, Tree>)
    ensures Safe(w, w, sources)
  {
  }

  // ---- Preflight -----------------------------------------------------------

  /** A registry entry: the source tree found at its path, and the digest registered for every
      file. */
  datatype Entry = Entry(source: Tree, digests: Manifest)

  /** The checks before the first write, for one skill.  A temporary file left behind is an
      unmanaged file. */
  predicate Ready(w: World, name: string, entry: Entry) {
    var source, installed := entry.source, TreeAt(w, name);
    && IsSkill(source)
    && ManifestOf(source) == entry.digests
    && Files(installed) <= Files(source) && name !in w.strays
    && (installed != map[] ==> IsSkill(installed))
    && (installed != map[] && BackupOf(name, installed) in w.history ==> Restorable(w, name, installed))
  }

  /** The checks, file by file: the source is a skill as registered; nothing is left over; and a
      skill that is found has only files the source manages, and a free path for its backup or
      one that holds the same files with the same normalised content. */
  lemma ReadyIff(w: World, name: string, entry: Entry)
    ensures var source, found := entry.source, TreeAt(w, name);
            Ready(w, name, entry) <==>
            && SKILL in source && Files(source) == entry.digests.Keys
            && (forall p :: p in Files(source) ==> Sha256(Normal(p, source[p])) == entry.digests[p])
            && name !in w.strays && Files(found) <= Files(source)
            && (found != map[] ==>
                  SKILL in found
                  && (BackupOf(name, found) in w.history ==> SameFiles(w.history[BackupOf(name, found)], found)))
  {
    var source, found := entry.source, TreeAt(w, name);
    if IsSkill(found) && BackupOf(name, found) in w.history {
      RestorableIff(w, name, found);
    }
    hide Normal, Ignored, DigestOf, Restorable, SameFiles, TreeDigest;
    assert ManifestOf(source) == entry.digests <==>
           Files(source) == entry.digests.Keys && forall p :: p in Files(source) ==> ManifestOf(source)[p] == entry.digests[p];
  }

  lemma RestorableIff(w: World, name: string, found: Tree)
    requires IsSkill(found) && BackupOf(name, found) in w.history
    ensures Restorable(w, name, found) <==> SameFiles(w.history[BackupOf(name, found)], found)
  {
    ParityMeans(w.history[BackupOf(name, found)], found);
    SkillStays(found);
    hide Normal, Ignored, TreeDigest;
  }

  /** The same managed files, with the same normalised content. */
  predicate SameFiles(a: Tree, b: Tree) {
    Files(a) == Files(b) && forall p :: p in Files(a) ==> Normal(p, a[p]) == Normal(p, b[p])
  }

  lemma SkillStays(tree: Tree)
    ensures SKILL in Files(tree) <==> IsSkill(tree)
  {
    if IsSkill(tree) { SkillIsManaged(tree); }
  }

  /** The names asked for, or all of them in order. */
  function Named(requested: seq<string>, registry: map<string, Entry>): seq<string> {
    if requested == [] then SortedKeys(registry.Keys) else requested
  }

  lemma NamesMean(requested: seq<string>, registry: map<string, Entry>)
    ensures requested != [] ==> Named(requested, registry) == requested
    ensures requested == [] ==> forall n :: n in registry <==> n in Named(requested, registry)
  {
  }

  lemma SafeElsewhere(before: World, now: World, names: seq<string>, registry: map<string, Entry>)
    requires Safe(before, now, SourcesOf(names, registry))
    ensures forall n :: n !in names ==> TreeAt(now, n) == TreeAt(before, n)
  {
    hide Protected, HistoryKept;
  }

  /** Names that are registered and named once. */
  predicate Selectable(names: seq<string>, registry: map<string, Entry>) {
    && (forall i :: 0 <= i < |names| ==> names[i] in registry)
    && forall i, j :: 0 <= i < j < |names| ==> names[i] != names[j]
  }

  function SourcesOf(names: seq<string>, registry: map<string, Entry>): map<string, Tree> {
    map n | n in names && n in registry :: registry[n].source
  }

  /** The skill is there, with no unmanaged file, and every file has its registered digest. */
  predicate AsRegistered(w: World, name: string, registry: map<string, Entry>) {
    && name in registry && name !in w.strays
    && SKILL in TreeAt(w, name)
    && Files(TreeAt(w, name)) == registry[name].digests.Keys
    && forall p :: p in Files(TreeAt(w, name)) ==>
         Sha256(Normal(p, TreeAt(w, name)[p])) == registry[name].digests[p]
  }

  /** A skill with the digest of a source that passed the checks is as registered. */
  lemma ParityIsRegistered(before: World, now: World, name: string, registry: map<string, Entry>)
    requires name in registry && Ready(before, name, registry[name]) && now.strays == before.strays
    requires TreeDigest(TreeAt(now, name)) == TreeDigest(registry[name].source)
    ensures AsRegistered(now, name, registry)
  {
    DigestCanonical(ManifestOf(TreeAt(now, name)), ManifestOf(registry[name].source));
    SkillIsManaged(registry[name].source);
    hide DigestOf, Normal, Ignored;
    var m := ManifestOf(TreeAt(now, name));
    assert m == registry[name].digests;
    assert SKILL in Files(registry[name].source);
    assert m.Keys == Files(TreeAt(now, name)) && SKILL in m.Keys;
  }

  lemma SkillIsManaged(tree: Tree)
    requires IsSkill(tree)
    ensures SKILL in Files(tree)
  {
    var p := LowerAll(SKILL);
    assert |SKILL| == 8 && |"/" + SKILL| == 9 && |"/__pycache__/"| == 13 && |"/.pytest_cache/"| == 15;
    assert p[7] == 'd' && |p| == 8;
    assert ".pyc"[3] == 'c' && ".pyo"[3] == 'o';
    assert !EndsWith(p, ".pyc") && !EndsWith(p, ".pyo");
  }

  datatype Outcome = Refused | Interrupted | Installed

  class Installer {
    var dest: map<string, Tree>
    var history: map<Backup, Tree>
    var strays: set<string>
    /** How many more writes succeed. */
    var left: nat
    /** Whether a failed write leaves its temporary file behind. */
    const leaves: bool

    function Now(): World
      reads this
    {
      World(dest, history, strays)
    }

    constructor (w: World, left: nat, leaves: bool)
      ensures Now() == w && this.left == left && this.leaves == leaves
    {
      dest, history, strays, this.left, this.leaves := w.dest, w.history, w.strays, left, leaves;
    }

    method Spend() returns (ok: bool)
      modifies this`left
      ensures ok ==> left < old(left)
      ensures ok <==> old(left) > 0
      ensures !ok ==> left == 0
    {
      ok := left > 0;
      left := if ok then left - 1 else 0;
    }

    /** Writes a temporary file and moves it into place; a failure may leave it behind. */
    method Place(name: string) returns (ok: bool)
      modifies this`left, this`strays
      ensures strays == if !ok && leaves then old(strays) + {name} else old(strays)
      ensures !ok ==> left == 0
    {
      ok := Spend();
      if ok {
        ok := Spend();
      }
      if !ok && leaves {
        strays := strays + {name};
      }
    }

    /** shutil.copytree into the history: complete, or as far as the writes succeeded. */
    method CopyTree(name: string, tree: Tree) returns (ok: bool)
      requires BackupOf(name, tree) !in history
      modifies this`history, this`left
      ensures ok ==> history == old(history)[BackupOf(name, tree) := tree]
      ensures forall b :: b in history <==> b in old(history) || b == BackupOf(name, tree)
      ensures forall b :: b in old(history) ==> history[b] == old(history)[b]
      ensures !ok ==> left == 0
    {
      hide TreeDigest;
      var b := BackupOf(name, tree);
      var copied: Tree := map[];
      var todo := tree.Keys;
      history := history[b := copied];
      while todo != {}
        invariant todo <= tree.Keys && copied.Keys == tree.Keys - todo
        invariant forall p :: p in copied ==> copied[p] == tree[p]
        invariant history == old(history)[b := copied]
      {
        var ok' := Spend();
        if !ok' {
          return false;
        }
        var p :| p in todo;
        copied := copied[p := tree[p]];
        history := history[b := copied];
        assert history == old(history)[b := copied];
        todo := todo - {p};
      }
      assert copied == tree;
      return true;
    }

    /** sync_install: each canonical file is written beside its place and moved over it. */
    method SyncInstall(name: string, source: Tree) returns (ok: bool)
      modifies this`dest, this`left, this`strays
      ensures forall other :: other != name ==> TreeAt(Now(), other) == TreeAt(old(Now()), other)
      ensures OldOrCanonical(TreeAt(old(Now()), name), TreeAt(Now(), name), source)
      ensures ok ==> forall p :: p in Files(source) ==> p in TreeAt(Now(), name) && TreeAt(Now(), name)[p] == source[p]
      ensures strays == if !ok && leaves then old(strays) + {name} else old(strays)
      ensures !ok ==> left == 0
    {
      hide Files, OldOrCanonical;
      var tree := TreeAt(Now(), name);
      ghost var was := tree;
      var todo := Files(source);
      dest := dest[name := tree];
      AsFound(tree, source);
      while todo != {}
        invariant todo <= Files(source)
        invariant dest == old(dest)[name := tree]
        invariant OldOrCanonical(was, tree, source)
        invariant forall p :: p in Files(source) && p !in todo ==> p in tree && p in source && tree[p] == source[p]
        invariant strays == old(strays)
      {
        var placed := Place(name);
        if !placed {
          return false;
        }
        var p :| p in todo;
        Replaced(was, tree, source, p);
        tree := tree[p := source[p]];
        dest := dest[name := tree];
        assert dest == old(dest)[name := tree];
        todo := todo - {p};
      }
      return true;
    }

    /** The previous tree is backed up, or its backup verified, before the first write. */
    method BackUp(name: string, ghost before: World) returns (ok: bool)
      requires TreeAt(Now(), name) != map[] && IsSkill(TreeAt(Now(), name))
      requires HistoryKept(before, Now())
      requires BackupOf(name, TreeAt(Now(), name)) in history ==>
                 BackupOf(name, TreeAt(Now(), name)) in before.history && Restorable(Now(), name, TreeAt(Now(), name))
      modifies this`history, this`left
      ensures HistoryKept(before, Now())
      ensures ok ==> BackedUp(before, Now(), name, TreeAt(Now(), name))
      ensures forall b :: b in history && b !in old(history) ==> b == BackupOf(name, TreeAt(Now(), name))
      ensures forall b :: b in old(history) ==> b in history && history[b] == old(history)[b]
      ensures !ok ==> left == 0
    {
      hide TreeDigest;
      var tree := TreeAt(Now(), name);
      var b := BackupOf(name, tree);
      if b !in history {
        ok := CopyTree(name, tree);
        if !ok { return; }
      }
      ok := Restorable(Now(), name, tree);
    }

    /** The checks of every selected skill. */
    ghost predicate Admitted(names: seq<string>, registry: map<string, Entry>)
      reads this
    {
      Selectable(names, registry) && forall n :: n in names ==> Ready(Now(), n, registry[n])
    }

    /** Where the loop stands: the first i skills are installed, the rest untouched. */
    ghost predicate Going(before: World, names: seq<string>, registry: map<string, Entry>, i: nat)
      reads this
    {
      && Safe(before, Now(), SourcesOf(names, registry))
      && Selectable(names, registry) && i <= |names| && strays == before.strays
      && (forall j :: 0 <= j < |names| ==> Ready(before, names[j], registry[names[j]]))
      && (forall j :: i <= j < |names| ==> TreeAt(Now(), names[j]) == TreeAt(before, names[j]))
      && (forall j, b :: i <= j < |names| && b in history && b !in before.history ==> b.0 != names[j])
      && (forall j :: 0 <= j < i ==> TreeDigest(TreeAt(Now(), names[j])) == TreeDigest(registry[names[j]].source))
    }

    /** sync_registered(install=True): with no other writer it is refused, complete, or out of
        writes. */
    method SyncRegistered(requested: seq<string>, registry: map<string, Entry>) returns (outcome: Outcome)
      modifies this
      ensures var names := Named(requested, registry);
              && Safe(old(Now()), Now(), SourcesOf(names, registry))
              && (outcome == Refused <==> !old(Admitted(names, registry)))
              && (outcome == Installed ==> forall n :: n in names && n in registry ==>
                    TreeDigest(TreeAt(Now(), n)) == TreeDigest(registry[n].source))
      ensures outcome == Refused ==> Now() == old(Now())
      ensures outcome == Installed ==>
                && (forall n :: n in requested ==> AsRegistered(Now(), n, registry))
                && (requested == [] ==> forall n :: n in registry ==> AsRegistered(Now(), n, registry))
      ensures requested != [] ==> forall n :: n !in requested ==> TreeAt(Now(), n) == TreeAt(old(Now()), n)
      ensures outcome == Interrupted ==>
                left == 0
                && (strays == old(strays)
                    || (leaves && exists n :: n in Named(requested, registry) && strays == old(strays) + {n}))
      ensures outcome == Installed ==>
                strays == old(strays)
                && forall n :: n in Named(requested, registry) ==> AsRegistered(Now(), n, registry)
    {
      hide Safe, Ready, TreeDigest, Named, AsRegistered;
      var names := Named(requested, registry);
      ghost var before := Now();
      SafeAtStart(before, SourcesOf(names, registry));
      if !Selectable(names, registry) || exists n :: n in names && !Ready(Now(), n, registry[n]) {
        return Refused;
      }
      NamesMean(requested, registry);
      var i := 0;
      while i < |names|
        invariant 0 <= i <= |names| && Going(before, names, registry, i)
        invariant Safe(before, Now(), SourcesOf(names, registry))
      {
        var ok := InstallNext(names, registry, i, before);
        if !ok {
          SafeElsewhere(before, Now(), names, registry);
          return Interrupted;
        }
        i := i + 1;
      }
      SafeElsewhere(before, Now(), names, registry);
      forall n | n in names ensures AsRegistered(Now(), n, registry) {
        var j :| 0 <= j < |names| && names[j] == n;
        ParityIsRegistered(before, Now(), n, registry);
      }
      return Installed;
    }

    /** One turn of the loop. */
    method InstallNext(names: seq<string>, registry: map<string, Entry>, i: nat, ghost before: World) returns (ok: bool)
      requires i < |names| && Going(before, names, registry, i)
      modifies this
      ensures strays == before.strays || (!ok && leaves && strays == before.strays + {names[i]})
      ensures ok ==> Going(before, names, registry, i + 1)
      ensures Safe(before, Now(), SourcesOf(names, registry))
      ensures !ok ==> left == 0
    {
      hide Safe, Ready, TreeDigest;
      var name := names[i];
      assert names[i] in SourcesOf(names, registry);
      ok := InstallOne(name, registry[name], SourcesOf(names, registry), before);
    }

    /** One skill: its previous tree is backed up before its files are replaced. */
    method InstallOne(name: string, entry: Entry, ghost sources: map<string, Tree>, ghost before: World) returns (ok: bool)
      requires name in sources && sources[name] == entry.source && Ready(before, name, entry)
      requires Safe(before, Now(), sources)
      requires TreeAt(Now(), name) == TreeAt(before, name)
      requires forall b :: b in history && b !in before.history ==> b.0 != name
      modifies this
      ensures strays == old(strays) || (!ok && leaves && strays == old(strays) + {name})
      ensures Safe(before, Now(), sources)
      ensures forall other :: other != name ==> TreeAt(Now(), other) == TreeAt(old(Now()), other)
      ensures forall b :: b in history && b !in old(history) ==> b.0 == name
      ensures ok ==> TreeDigest(TreeAt(Now(), name)) == TreeDigest(entry.source)
      ensures !ok ==> left == 0
    {
      hide TreeDigest, Files, OldOrCanonical, IsSkill, ManifestOf;
      var tree := TreeAt(Now(), name);
      if tree != map[] {
        ok := BackUp(name, before);
        if !ok {
          BackupKeepsSafe(before, old(Now()), Now(), sources);
          return;
        }
      }
      BackupKeepsSafe(before, old(Now()), Now(), sources);
      ghost var backed := Now();
      ok := SyncInstall(name, entry.source);
      InstallKeepsSafe(before, backed, Now(), sources, name);
      if ok {
        CompleteMeansParity(TreeAt(before, name), TreeAt(Now(), name), entry.source);
      }
    }
  }

  lemma AsFound(tree: Tree, source: Tree)
    ensures OldOrCanonical(tree, tree, source)
  {
  }

  lemma Replaced(was: Tree, tree: Tree, source: Tree, p: string)
    requires OldOrCanonical(was, tree, source) && p in Files(source)
    ensures p in source && OldOrCanonical(was, tree[p := source[p]], source)
  {
    hide Ignored;
  }

  /** New backups, with every tree as it was, keep an installation safe. */
  lemma BackupKeepsSafe(before: World, was: World, now: World, sources: map<string, Tree>)
    requires Safe(before, was, sources)
    requires now.dest == was.dest && HistoryKept(was, now)
    ensures Safe(before, now, sources)
  {
    hide TreeDigest, Files, OldOrCanonical, IsSkill;
    forall name | name in sources ensures Protected(before, now, name, sources[name]) {
      assert Protected(before, was, name, sources[name]);
      assert TreeAt(now, name) == TreeAt(was, name);
    }
  }

  /** Installing over a tree whose backup is restorable keeps an installation safe. */
  lemma InstallKeepsSafe(before: World, was: World, now: World, sources: map<string, Tree>, name: string)
    requires Safe(before, was, sources) && name in sources
    requires now.history == was.history
    requires TreeAt(was, name) == TreeAt(before, name)
    requires TreeAt(before, name) != map[] ==> BackedUp(before, was, name, TreeAt(before, name))
    requires forall other :: other != name ==> TreeAt(now, other) == TreeAt(was, other)
    requires OldOrCanonical(TreeAt(was, name), TreeAt(now, name), sources[name])
    ensures Safe(before, now, sources)
  {
    hide TreeDigest, Files, OldOrCanonical, IsSkill;
    forall other | other in sources ensures Protected(before, now, other, sources[other]) {
      assert Protected(before, was, other, sources[other]);
    }
  }

  /** Without unmanaged files before, a complete installation has parity with its source. */
  lemma CompleteMeansParity(was: Tree, now: Tree, source: Tree)
    requires Files(was) <= Files(source)
    requires OldOrCanonical(was, now, source)
    requires forall p :: p in Files(source) ==> p in now && now[p] == source[p]
    ensures TreeDigest(now) == TreeDigest(source)
  {
    hide Ignored, Normal;
    ParityMeans(source, now);
    forall p | p in Files(now) ensures p in Files(source) {
    }
    assert Files(now) == Files(source);
  }

  // ---- Runs ----------------------------------------------------------------

  /** A sequence of installations, each cut anywhere, with other changes to the installed
      trees in between but none to the history. */
  ghost predicate IsHistory(worlds: seq<World>, sources: seq<map<string, Tree>>) {
    && |worlds| == |sources| + 1
    && forall i :: 0 <= i < |sources| ==>
         Safe(worlds[i], worlds[i + 1], sources[i]) || worlds[i + 1].history == worlds[i].history
  }

  lemma {:induction false} BackupsStay(worlds: seq<World>, sources: seq<map<string, Tree>>, i: nat, j: nat)
    requires IsHistory(worlds, sources) && i <= j < |worlds|
    ensures HistoryKept(worlds[i], worlds[j])
    decreases j - i
  {
    if i < j {
      BackupsStay(worlds, sources, i, j - 1);
      assert Safe(worlds[j - 1], worlds[j - 1 + 1], sources[j - 1]) || worlds[j - 1 + 1].history == worlds[j - 1].history;
    }
  }

  /** Whatever an installation ever changed of a non-empty skill can be restored at every
      later time: a backup with the manifest of the tree it found is still in place. */
  lemma ChangedStaysRestorable(worlds: seq<World>, sources: seq<map<string, Tree>>, i: nat, j: nat, name: string)
    requires IsHistory(worlds, sources) && i < j < |worlds|
    requires Safe(worlds[i], worlds[i + 1], sources[i])
    requires TreeAt(worlds[i], name) != map[] && TreeAt(worlds[i + 1], name) != TreeAt(worlds[i], name)
    ensures Restorable(worlds[j], name, TreeAt(worlds[i], name))
  {
    hide TreeDigest, Files, OldOrCanonical, IsSkill;
    assert Protected(worlds[i], worlds[i + 1], name, sources[i][name]);
    BackupsStay(worlds, sources, i + 1, j);
  }

  /** Byte for byte: the backup of a changed non-empty skill holds exactly the tree that was found
      if and only if it was made in that run or an earlier one with the same manifest already
      held exactly that tree; and so it stays at every later time. */
  lemma BackupIsExactIff(worlds: seq<World>, sources: seq<map<string, Tree>>, i: nat, j: nat, name: string)
    requires IsHistory(worlds, sources) && i < j < |worlds|
    requires Safe(worlds[i], worlds[i + 1], sources[i])
    requires TreeAt(worlds[i], name) != map[] && TreeAt(worlds[i + 1], name) != TreeAt(worlds[i], name)
    ensures var tree := TreeAt(worlds[i], name);
            var b := BackupOf(name, tree);
            && b in worlds[j].history
            && (worlds[j].history[b] == tree
                <==> b !in worlds[i].history || worlds[i].history[b] == tree)
  {
    hide TreeDigest, Files, OldOrCanonical, IsSkill;
    assert Protected(worlds[i], worlds[i + 1], name, sources[i][name]);
    BackupsStay(worlds, sources, i + 1, j);
  }

  lemma LineEndsDoNotCount()
    ensures Normal(SKILL, "a\n") == Normal(SKILL, "a\r\n")
  {
    assert "a\r\n"[1..] == "\r\n" && "\r\n"[2..] == "" && "a\n"[1..] == "\n" && "\n"[1..] == "";
    assert Newlines("a\r\n") == "a\n" == Newlines("a\n");
    assert LowerAll(SKILL) == "skill.md";
  }

  /** The promise is about manifests, not bytes: an earlier backup that differs from the
      tree only in line ends counts as its backup, and is not replaced. */
  lemma BackupMayDifferInBytes(name: string)
    ensures var saved: Tree := map[SKILL := "a\n"];
            var found: Tree := map[SKILL := "a\r\n"];
            var w := World(map[name := found], map[BackupOf(name, saved) := saved], {});
            saved != found && Restorable(w, name, found)
  {
    var saved: Tree := map[SKILL := "a\n"];
    var found: Tree := map[SKILL := "a\r\n"];
    LineEndsDoNotCount();
    hide Normal, TreeDigest, Ignored;
    assert saved[SKILL] != found[SKILL];
    assert Files(saved) == Files(found) by {
      assert saved.Keys == found.Keys;
    }
    ParityMeans(saved, found);
  }
}
