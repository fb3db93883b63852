/** The logical fingerprint of a database and the proof that it is a canonical form:
    two databases have the same fingerprint exactly when they hold the same
    normalised schema objects, the same user_version and, table by table, the same
    multiset of rows. */
module Fingerprints {
  import opened Decimal
  import Json
  import opened Lines
  import opened Text

  // ---- Database contents ---------------------------------------------------

  datatype Kind = Table | Index | Trigger | View

  datatype Key = Key(kind: Kind, name: string)

  type Byte = n: int | 0 <= n < 256

  datatype Cell =
    | NullCell
    | IntCell(n: int)
    | RealCell(repr: string)
    | TextCell(s: string)
    | BlobCell(bytes: seq<Byte>)

  type Row = seq<Cell>

  /** `objects` holds the SQL of every sqlite_master entry that has one; `rows` holds
      every table in storage order; `sound` is what the integrity pragmas report. */
  datatype Db = Db(objects: map<Key, string>, rows: map<string, seq<Row>>, userVersion: int, sound: bool)

  predicate WellFormedRow(row: Row) {
    forall i :: 0 <= i < |row| && row[i].RealCell? ==> Json.FloatText(row[i].repr)
  }

  predicate ValidRows(rows: seq<Row>) {
    forall i :: 0 <= i < |rows| ==> WellFormedRow(rows[i])
  }

  ghost predicate ValidDb(db: Db) {
    && (forall name :: Key(Table, name) in db.objects <==> name in db.rows)
    && (forall name :: name in db.rows ==> ValidRows(db.rows[name]))
  }

  // ---- Digests -------------------------------------------------------------

  /** SHA-256 stands for an injective map and is represented by its preimage. */
  datatype Digest = Sha256(preimage: string)

  function HexDigest(d: Digest): string {
    d.preimage
  }

  // ---- Normalised schema text ----------------------------------------------

  /** The words of sql.split(), folded; `word` is the word being read. */
  function Words(sql: string, word: string): (words: seq<string>)
    requires ' ' !in word
    ensures AllLines(words, ' ')
  {
    var done := if word == "" then [] else [word];
    if sql == "" then done
    else if IsSpace(sql[0]) then done + Words(sql[1..], "")
    else Words(sql[1..], word + [Lower(sql[0])])
  }

  /** " ".join(sql.split()).casefold() */
  function Sql(sql: string): string {
    Join(Words(sql, ""), ' ')
  }

  /** A text without its case and the width of its gaps: each character that is no space,
      folded, and whether a gap, or nothing, stands before it. */
  function Letters(sql: string, gap: bool): seq<(char, bool)> {
    if sql == "" then []
    else if IsSpace(sql[0]) then Letters(sql[1..], true)
    else [(Lower(sql[0]), gap)] + Letters(sql[1..], false)
  }

  function Marked(word: string): seq<(char, bool)> {
    seq(|word|, i requires 0 <= i < |word| => (word[i], i == 0))
  }

  function Flat(words: seq<string>): seq<(char, bool)> {
    if words == [] then [] else Marked(words[0]) + Flat(words[1..])
  }

  lemma MarkedMore(word: string, c: char)
    ensures Marked(word + [c]) == Marked(word) + [(c, word == "")]
    ensures Marked("") == []
  {
  }

  lemma FlatCons(word: string, words: seq<string>)
    ensures Flat([word] + words) == Marked(word) + Flat(words)
  {
    assert ([word] + words)[1..] == words;
  }

  /** One character of a text, read both ways. */
  lemma LettersTurn(sql: string, word: string)
    requires ' ' !in word && sql != ""
    ensures IsSpace(sql[0]) ==>
              && Letters(sql, word == "") == Letters(sql[1..], true)
              && Words(sql, word) == (if word == "" then [] else [word]) + Words(sql[1..], "")
    ensures !IsSpace(sql[0]) ==>
              && Letters(sql, word == "") == [(Lower(sql[0]), word == "")] + Letters(sql[1..], false)
              && Words(sql, word) == Words(sql[1..], word + [Lower(sql[0])])
  {
  }

  lemma {:induction false} WordsAreLetters(sql: string, word: string)
    requires ' ' !in word
    ensures Flat(Words(sql, word)) == Marked(word) + Letters(sql, word == "")
  {
    MarkedMore(word, ' ');
    if sql == "" {
      FlatCons(word, []);
    } else {
      hide Marked, Words, Letters, Flat, IsSpace;
      var rest := sql[1..];
      LettersTurn(sql, word);
      if IsSpace(sql[0]) {
        WordsAreLetters(rest, "");
        FlatCons(word, Words(rest, ""));
        assert [] + Words(rest, "") == Words(rest, "");
      } else {
        MarkedMore(word, Lower(sql[0]));
        WordsAreLetters(rest, word + [Lower(sql[0])]);
      }
    }
  }

  /** The first word ends at the second mark, or with the text. */
  lemma FlatStarts(words: seq<string>)
    requires AllLines(words, ' ') && words != []
    ensures var flat, n := Flat(words), |words[0]|;
            && 0 < n <= |flat| && flat[..n] == Marked(words[0]) && flat[n..] == Flat(words[1..])
            && flat[0].1 && (forall i :: 0 < i < n ==> !flat[i].1)
            && (|words| > 1 ==> n < |flat| && flat[n].1)
            && (|words| == 1 ==> n == |flat|)
  {
    assert IsLine(words[0], ' ');
    if |words| > 1 {
      assert IsLine(words[1], ' ');
      assert Flat(words[1..])[0] == Marked(words[1])[0];
    }
  }

  lemma {:induction false} FlatUnique(a: seq<string>, b: seq<string>)
    requires AllLines(a, ' ') && AllLines(b, ' ') && Flat(a) == Flat(b)
    ensures a == b
  {
    if a != [] { FlatStarts(a); }
    if b != [] { FlatStarts(b); }
    if a != [] && b != [] {
      var flat := Flat(a);
      assert |a[0]| == |b[0]|;
      assert forall i :: 0 <= i < |a[0]| ==> flat[..|a[0]|][i] == (a[0][i], i == 0) == (b[0][i], i == 0);
      assert a[0] == b[0];
      FlatUnique(a[1..], b[1..]);
      assert a == [a[0]] + a[1..] && b == [b[0]] + b[1..];
    }
  }

  /** Two texts normalise alike exactly when they differ only in case and in the width of their
      gaps. */
  lemma SqlCanonical(a: string, b: string)
    ensures Sql(a) == Sql(b) <==> Letters(a, true) == Letters(b, true)
  {
    WordsAreLetters(a, "");
    WordsAreLetters(b, "");
    MarkedMore("", ' ');
    assert forall x: seq<(char, bool)> :: Marked("") + x == x;
    if Sql(a) == Sql(b) {
      JoinUnique(Words(a, ""), Words(b, ""), ' ');
    }
    if Letters(a, true) == Letters(b, true) {
      FlatUnique(Words(a, ""), Words(b, ""));
    }
  }

  function Schema(db: Db): (schema: map<Key, string>)
    ensures schema.Keys == db.objects.Keys
  {
    map k | k in db.objects :: Sql(db.objects[k])
  }

  function KindText(kind: Kind): string {
    match kind
    case Table => "table"
    case Index => "index"
    case Trigger => "trigger"
    case View => "view"
  }

  function KeyText(k: Key): string {
    KindText(k.kind) + ":" + k.name
  }

  lemma KeyTextInjective(a: Key, b: Key)
    requires KeyText(a) == KeyText(b)
    ensures a == b
  {
    var t := KeyText(a);
    assert t[0] == KindText(a.kind)[0] == KindText(b.kind)[0];
    assert t[1] == KindText(a.kind)[1] == KindText(b.kind)[1];
    assert a.kind == b.kind;
    var n := |KindText(a.kind)| + 1;
    assert a.name == KeyText(a)[n..] == KeyText(b)[n..] == b.name;
  }

  // ---- Rows ----------------------------------------------------------------

  function BytesHex(bytes: seq<Byte>): string {
    if bytes == [] then ""
    else [Json.HexDigit(bytes[0] / 16), Json.HexDigit(bytes[0] % 16)] + BytesHex(bytes[1..])
  }

  lemma {:induction false} BytesHexInjective(a: seq<Byte>, b: seq<Byte>)
    requires BytesHex(a) == BytesHex(b)
    ensures a == b
  {
    var s, t := BytesHex(a), BytesHex(b);
    if a != [] && b != [] {
      assert s[0] == t[0] && s[1] == t[1];
      assert a[0] == b[0];
      assert s[2..] == BytesHex(a[1..]) && t[2..] == BytesHex(b[1..]);
      BytesHexInjective(a[1..], b[1..]);
      assert a == [a[0]] + a[1..] && b == [b[0]] + b[1..];
    }
  }

  function CellValue(c: Cell): Json.Value {
    match c
    case NullCell => Json.Null
    case IntCell(n) => Json.Int(n)
    case RealCell(repr) => Json.Float(repr)
    case TextCell(s) => Json.Str(s)
    case BlobCell(bytes) => Json.Obj([Json.Member("blob_hex", Json.Str(BytesHex(bytes)))])
  }

  function RowValue(row: Row): Json.Value {
    Json.Arr(seq(|row|, i requires 0 <= i < |row| => CellValue(row[i])))
  }

  function RowText(row: Row): string {
    Json.Text(RowValue(row))
  }

  lemma CellValueInjective(a: Cell, b: Cell)
    requires CellValue(a) == CellValue(b)
    ensures a == b
  {
    if a.BlobCell? {
      assert CellValue(a).members[0] == CellValue(b).members[0];
      BytesHexInjective(a.bytes, b.bytes);
    }
  }

  lemma RowTextUnique(a: Row, b: Row)
    requires WellFormedRow(a) && WellFormedRow(b)
    ensures RowText(a) == RowText(b) <==> a == b
  {
    Json.TextUnique(RowValue(a), RowValue(b));
    if RowValue(a) == RowValue(b) {
      forall i | 0 <= i < |a| ensures |a| == |b| && a[i] == b[i] {
        assert RowValue(a).items[i] == RowValue(b).items[i];
        CellValueInjective(a[i], b[i]);
      }
      assert |a| == |RowValue(a).items| == |b|;
    }
  }

  lemma RowTextIsLine(row: Row)
    requires WellFormedRow(row)
    ensures IsLine(RowText(row), '\n')
  {
    Json.TextOneLine(RowValue(row));
  }

  function RowTexts(rows: seq<Row>): (texts: seq<string>)
    ensures |texts| == |rows|
    ensures forall i :: 0 <= i < |rows| ==> texts[i] == RowText(rows[i])
  {
    seq(|rows|, i requires 0 <= i < |rows| => RowText(rows[i]))
  }

  lemma RowTextsAreLines(rows: seq<Row>)
    requires ValidRows(rows)
    ensures AllLines(RowTexts(rows), '\n')
  {
    forall i | 0 <= i < |rows| ensures IsLine(RowTexts(rows)[i], '\n') {
      RowTextIsLine(rows[i]);
    }
  }

  lemma CountCons<T>(x: T, rest: seq<T>, y: T)
    ensures multiset([x] + rest)[y] == multiset(rest)[y] + if x == y then 1 else 0
  {
    assert multiset([x] + rest) == multiset{x} + multiset(rest);
  }

  lemma RowTextsCons(row: Row, rest: seq<Row>)
    ensures RowTexts([row] + rest) == [RowText(row)] + RowTexts(rest)
  {
    hide RowText;
  }

  /** Encoding keeps every multiplicity. */
  lemma {:induction false} RowTextCount(rows: seq<Row>, row: Row)
    requires ValidRows(rows) && WellFormedRow(row)
    ensures multiset(RowTexts(rows))[RowText(row)] == multiset(rows)[row]
  {
    if rows != [] {
      hide RowText, RowTexts, WellFormedRow;
      RowTextCount(rows[1..], row);
      RowTextUnique(rows[0], row);
      RowTextsCons(rows[0], rows[1..]);
      CountCons(RowText(rows[0]), RowTexts(rows[1..]), RowText(row));
      CountCons(rows[0], rows[1..], row);
      assert rows == [rows[0]] + rows[1..];
    }
  }

  lemma RowTextsMultiset(a: seq<Row>, b: seq<Row>)
    requires ValidRows(a) && ValidRows(b)
    ensures multiset(RowTexts(a)) == multiset(RowTexts(b)) <==> multiset(a) == multiset(b)
  {
    if multiset(RowTexts(a)) == multiset(RowTexts(b)) {
      forall row ensures multiset(a)[row] == multiset(b)[row] {
        if row in a || row in b {
          RowTextCount(a, row);
          RowTextCount(b, row);
        }
      }
    }
    if multiset(a) == multiset(b) {
      forall text ensures multiset(RowTexts(a))[text] == multiset(RowTexts(b))[text] {
        if text in RowTexts(a) {
          var i :| 0 <= i < |a| && RowTexts(a)[i] == text;
          RowTextCount(a, a[i]);
          RowTextCount(b, a[i]);
        } else if text in RowTexts(b) {
          var i :| 0 <= i < |b| && RowTexts(b)[i] == text;
          RowTextCount(a, b[i]);
          RowTextCount(b, b[i]);
        }
      }
    }
  }

  // ---- Tables --------------------------------------------------------------

  datatype TableState = TableState(rows: nat, sha: Digest)

  function TableStateOf(rows: seq<Row>): TableState {
    TableState(|rows|, Sha256(Join(Sort(RowTexts(rows)), '\n')))
  }

  /** A table's entry does not depend on the order of its rows, and on nothing less. */
  lemma TableStateCanonical(a: seq<Row>, b: seq<Row>)
    requires ValidRows(a) && ValidRows(b)
    ensures TableStateOf(a) == TableStateOf(b) <==> multiset(a) == multiset(b)
  {
    RowTextsAreLines(a);
    RowTextsAreLines(b);
    SortedJoinCanonical(RowTexts(a), RowTexts(b), '\n');
    RowTextsMultiset(a, b);
    if multiset(a) == multiset(b) {
      assert |a| == |multiset(a)| == |multiset(b)| == |b|;
    }
  }

  // ---- Objects with sorted keys --------------------------------------------

  lemma {:induction false} LeastExists(s: set<string>)
    requires s != {}
    ensures exists k :: k in s && forall x :: x in s ==> Leq(k, x)
  {
    var k :| k in s;
    LeqTotal(k, k);
    var least := k;
    if s != {k} {
      LeastExists(s - {k});
      var m :| m in s - {k} && forall x :: x in s - {k} ==> Leq(m, x);
      LeqTotal(k, m);
      least := if Leq(k, m) then k else m;
      forall x | x in s ensures Leq(least, x) {
        if x != k && Leq(k, m) { LeqTransitive(k, m, x); }
      }
    }
    assert least in s && forall x :: x in s ==> Leq(least, x);
  }

  lemma LeastUnique(s: set<string>)
    ensures forall j, k :: (j in s && k in s && (forall x :: x in s ==> Leq(j, x))
                            && (forall x :: x in s ==> Leq(k, x))) ==> j == k
  {
    forall j, k | j in s && k in s && (forall x :: x in s ==> Leq(j, x)) && (forall x :: x in s ==> Leq(k, x))
      ensures j == k
    {
      LeqAntisymmetric(j, k);
    }
  }

  function SortedKeys(s: set<string>): (keys: seq<string>)
    ensures forall k :: k in s <==> k in keys
    decreases |s|
  {
    if s == {} then []
    else
      LeastExists(s);
      LeastUnique(s);
      var k :| k in s && forall x :: x in s ==> Leq(k, x);
      [k] + SortedKeys(s - {k})
  }

  /** A JSON object written with sort_keys=True. */
  function SortedObj(m: map<string, Json.Value>): Json.Value {
    var keys := SortedKeys(m.Keys);
    Json.Obj(seq(|keys|, i requires 0 <= i < |keys| => Json.Member(keys[i], m[keys[i]])))
  }

  lemma SortedObjMember(m: map<string, Json.Value>, k: string)
    requires k in m
    ensures Json.Member(k, m[k]) in SortedObj(m).members
  {
    var keys := SortedKeys(m.Keys);
    var i :| 0 <= i < |keys| && keys[i] == k;
    assert SortedObj(m).members[i] == Json.Member(k, m[k]);
  }

  lemma SortedObjInjective(a: map<string, Json.Value>, b: map<string, Json.Value>)
    requires SortedObj(a) == SortedObj(b)
    ensures a == b
  {
    forall k | k in a ensures k in b && b[k] == a[k] {
      SortedObjMember(a, k);
      var i :| 0 <= i < |SortedObj(b).members| && SortedObj(b).members[i] == Json.Member(k, a[k]);
    }
    forall k | k in b ensures k in a {
      SortedObjMember(b, k);
      var i :| 0 <= i < |SortedObj(a).members| && SortedObj(a).members[i] == Json.Member(k, b[k]);
    }
  }

  // ---- Fingerprints --------------------------------------------------------

  datatype Fingerprint = Fingerprint(
    objects: map<string, string>,
    tables: map<string, TableState>,
    userVersion: int,
    logical: Digest)

  function ObjectTexts(schema: map<Key, string>): map<string, string> {
    KeyTextInjectiveAll();
    map k | k in schema :: KeyText(k) := schema[k]
  }

  lemma KeyTextInjectiveAll()
    ensures forall a, b :: KeyText(a) == KeyText(b) ==> a == b
  {
    forall a, b | KeyText(a) == KeyText(b) ensures a == b { KeyTextInjective(a, b); }
  }

  function TableStates(db: Db): (states: map<string, TableState>)
    ensures states.Keys == db.rows.Keys
  {
    map name | name in db.rows :: TableStateOf(db.rows[name])
  }

  function StateValue(state: TableState): Json.Value {
    Json.Obj([Json.Member("rows", Json.Int(state.rows)), Json.Member("sha256", Json.Str(HexDigest(state.sha)))])
  }

  function ObjectsValue(objects: map<string, string>): Json.Value {
    SortedObj(map k | k in objects :: Json.Str(objects[k]))
  }

  function TablesValue(tables: map<string, TableState>): Json.Value {
    SortedObj(map k | k in tables :: StateValue(tables[k]))
  }

  /** The document whose text is hashed into logical_sha256. */
  function Body(objects: map<string, string>, tables: map<string, TableState>, userVersion: int): Json.Value {
    Json.Obj([
      Json.Member("objects", ObjectsValue(objects)),
      Json.Member("tables", TablesValue(tables)),
      Json.Member("user_version", Json.Int(userVersion))])
  }

  function FingerprintOf(db: Db): Fingerprint {
    var objects := ObjectTexts(Schema(db));
    var tables := TableStates(db);
    Fingerprint(objects, tables, db.userVersion, Sha256(Json.Text(Body(objects, tables, db.userVersion))))
  }

  function Logical(db: Db): Digest {
    FingerprintOf(db).logical
  }

  lemma SortedObjWellFormed(m: map<string, Json.Value>)
    requires forall k :: k in m ==> Json.WellFormed(m[k])
    ensures Json.WellFormed(SortedObj(m))
  {
    var keys := SortedKeys(m.Keys);
    forall i | 0 <= i < |keys| ensures Json.WellFormed(SortedObj(m).members[i].value) {
      assert keys[i] in m.Keys;
    }
  }

  lemma BodyWellFormed(objects: map<string, string>, tables: map<string, TableState>, userVersion: int)
    ensures Json.WellFormed(Body(objects, tables, userVersion))
  {
    ObjectsWellFormed(objects);
    TablesWellFormed(tables);
    hide ObjectsValue, TablesValue;
  }

  lemma ObjectsWellFormed(objects: map<string, string>)
    ensures Json.WellFormed(ObjectsValue(objects))
  {
    hide SortedObj;
    SortedObjWellFormed(map k | k in objects :: Json.Str(objects[k]));
  }

  lemma TablesWellFormed(tables: map<string, TableState>)
    ensures Json.WellFormed(TablesValue(tables))
  {
    hide SortedObj;
    SortedObjWellFormed(map k | k in tables :: StateValue(tables[k]));
  }

  lemma ObjectsValueInjective(a: map<string, string>, b: map<string, string>)
    requires ObjectsValue(a) == ObjectsValue(b)
    ensures a == b
  {
    hide SortedObj;
    var x, y := map k | k in a :: Json.Str(a[k]), map k | k in b :: Json.Str(b[k]);
    SortedObjInjective(x, y);
    assert a.Keys == x.Keys == y.Keys == b.Keys;
    assert forall k :: k in a ==> x[k] == y[k];
  }

  lemma TablesValueInjective(a: map<string, TableState>, b: map<string, TableState>)
    requires TablesValue(a) == TablesValue(b)
    ensures a == b
  {
    hide SortedObj;
    var x, y := map k | k in a :: StateValue(a[k]), map k | k in b :: StateValue(b[k]);
    SortedObjInjective(x, y);
    assert a.Keys == x.Keys == y.Keys == b.Keys;
    forall k | k in a ensures a[k] == b[k] {
      assert x[k] == y[k];
      assert x[k].members[0] == y[k].members[0] && x[k].members[1] == y[k].members[1];
    }
  }

  lemma BodyInjective(o: map<string, string>, t: map<string, TableState>, v: int,
                      o': map<string, string>, t': map<string, TableState>, v': int)
    requires Body(o, t, v) == Body(o', t', v')
    ensures o == o' && t == t' && v == v'
  {
    var m, m' := Body(o, t, v).members, Body(o', t', v').members;
    assert m[0] == m'[0] && m[1] == m'[1] && m[2] == m'[2];
    ObjectsValueInjective(o, o');
    TablesValueInjective(t, t');
  }

  lemma ObjectTextsInjective(a: map<Key, string>, b: map<Key, string>)
    requires ObjectTexts(a) == ObjectTexts(b)
    ensures a == b
  {
    KeyTextInjectiveAll();
    forall k | k in a ensures k in b && b[k] == a[k] {
      assert KeyText(k) in ObjectTexts(a);
    }
    forall k | k in b ensures k in a {
      assert KeyText(k) in ObjectTexts(b);
    }
  }

  /** What the migration means by "the same logical database". */
  ghost predicate SameLogical(a: Db, b: Db) {
    && Schema(a) == Schema(b)
    && a.userVersion == b.userVersion
    && a.rows.Keys == b.rows.Keys
    && forall name :: name in a.rows ==> multiset(a.rows[name]) == multiset(b.rows[name])
  }

  lemma TableStatesCanonical(a: Db, b: Db)
    requires ValidDb(a) && ValidDb(b)
    ensures TableStates(a) == TableStates(b) <==>
            a.rows.Keys == b.rows.Keys
            && forall name :: name in a.rows ==> multiset(a.rows[name]) == multiset(b.rows[name])
  {
    var ta, tb := TableStates(a), TableStates(b);
    if a.rows.Keys == b.rows.Keys {
      forall name | name in a.rows
        ensures ta[name] == tb[name] <==> multiset(a.rows[name]) == multiset(b.rows[name])
      {
        TableStateCanonical(a.rows[name], b.rows[name]);
      }
    }
  }

  /** The fingerprint, and already its digest alone, is a canonical form. */
  lemma FingerprintCanonical(a: Db, b: Db)
    requires ValidDb(a) && ValidDb(b)
    ensures SameLogical(a, b) <==> FingerprintOf(a) == FingerprintOf(b)
    ensures SameLogical(a, b) <==> Logical(a) == Logical(b)
  {
    TableStatesCanonical(a, b);
    if Logical(a) == Logical(b) {
      var oa, ob := ObjectTexts(Schema(a)), ObjectTexts(Schema(b));
      var ta, tb := TableStates(a), TableStates(b);
      BodyWellFormed(oa, ta, a.userVersion);
      BodyWellFormed(ob, tb, b.userVersion);
      Json.TextUnique(Body(oa, ta, a.userVersion), Body(ob, tb, b.userVersion));
      BodyInjective(oa, ta, a.userVersion, ob, tb, b.userVersion);
      ObjectTextsInjective(Schema(a), Schema(b));
    }
  }
}
