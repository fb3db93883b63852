/** Compact JSON text, as json.dumps writes it with separators=(",", ":") and
    ensure_ascii=False.  The main result, TextUnique, says that the text determines
    the value: this is what lies under every digest the migration compares. */
module Json {
  import opened Decimal

  datatype Value =
    | Null
    | Int(n: int)
    | Float(repr: string)
    | Str(s: string)
    | Arr(items: seq<Value>)
    | Obj(members: seq<Member>)

  datatype Member = Member(key: string, value: Value)

  /** What float repr produces, other than 'nan': SQLite stores a NaN as NULL. */
  predicate FloatText(s: string) {
    && |s| > 0
    && (IsDigit(s[0]) || s[0] == '-' || s[0] == 'I')
    && (forall i :: 0 <= i < |s| ==> s[i] !in {',', ']', '}', '\n'})
    && (exists i :: 0 <= i < |s| && s[i] in {'.', 'e', 'I'})
  }

  predicate WellFormed(v: Value) {
    match v
    case Float(repr) => FloatText(repr)
    case Arr(items) => forall i :: 0 <= i < |items| ==> WellFormed(items[i])
    case Obj(members) => forall i :: 0 <= i < |members| ==> WellFormed(members[i].value)
    case _ => true
  }

  function HexDigit(n: nat): (c: char)
    requires n < 16
  {
    if n < 10 then DigitChar(n) else ('a' as int + (n - 10)) as char
  }

  function CharText(c: char): (t: string)
    ensures |t| > 0
  {
    if c == '"' then "\\\""
    else if c == '\\' then "\\\\"
    else if c == '\n' then "\\n"
    else if c == '\r' then "\\r"
    else if c == '\t' then "\\t"
    else if c as int == 8 then "\\b"
    else if c as int == 12 then "\\f"
    else if c as int < 32 then "\\u00" + [HexDigit(c as int / 16), HexDigit(c as int % 16)]
    else [c]
  }

  function Escaped(s: string): string {
    if s == [] then [] else CharText(s[0]) + Escaped(s[1..])
  }

  function StrText(s: string): (t: string)
    ensures |t| > 0 && t[0] == '"'
  {
    "\"" + Escaped(s) + "\""
  }

  function Text(v: Value): (t: string)
    decreases v, 0
  {
    match v
    case Null => "null"
    case Int(n) => IntText(n)
    case Float(repr) => repr
    case Str(s) => StrText(s)
    case Arr(items) => "[" + ItemsText(items, true) + "]"
    case Obj(members) => "{" + MembersText(members, true) + "}"
  }

  function ItemsText(items: seq<Value>, first: bool): string
    decreases items, 1
  {
    if items == [] then []
    else (if first then "" else ",") + Text(items[0]) + ItemsText(items[1..], false)
  }

  function MembersText(members: seq<Member>, first: bool): string
    decreases members, 1
  {
    if members == [] then []
    else
      (if first then "" else ",") + StrText(members[0].key) + ":" + Text(members[0].value)
      + MembersText(members[1..], false)
  }

  lemma CharUnique(c: char, d: char, x: string, y: string)
    requires CharText(c) + x == CharText(d) + y
    ensures c == d && x == y
  {
    var s, t := CharText(c) + x, CharText(d) + y;
    assert s[0] == t[0] && CharText(c)[0] == s[0] && CharText(d)[0] == t[0];
    if CharText(c)[0] == '\\' {
      assert s[1] == CharText(c)[1] && t[1] == CharText(d)[1];
      if s[1] == 'u' {
        assert s[4] == CharText(c)[4] && t[4] == CharText(d)[4];
        assert s[5] == CharText(c)[5] && t[5] == CharText(d)[5];
        assert c as int == d as int;
      }
    }
    assert c == d;
    assert s[|CharText(c)|..] == x && t[|CharText(d)|..] == y;
  }

  lemma Regroup(a: string, b: string, c: string, d: string)
    ensures ((a + b) + c) + d == a + ((b + c) + d)
  {
  }

  lemma EscapedHead(s: string, x: string)
    requires s != []
    ensures Escaped(s) + "\"" + x == CharText(s[0]) + (Escaped(s[1..]) + "\"" + x)
  {
    assert Escaped(s) == CharText(s[0]) + Escaped(s[1..]);
    hide CharText, Escaped;
    Regroup(CharText(s[0]), Escaped(s[1..]), "\"", x);
  }

  /** The closing quote cannot be taken for the text of a character. */
  lemma EscapedStart(s: string, x: string)
    ensures |Escaped(s) + "\"" + x| > 0
    ensures (Escaped(s) + "\"" + x)[0] == '"' <==> s == []
  {
  }

  lemma {:induction false} EscapedUnique(s: string, t: string, x: string, y: string)
    requires Escaped(s) + "\"" + x == Escaped(t) + "\"" + y
    ensures s == t && x == y
  {
    EscapedStart(s, x);
    EscapedStart(t, y);
    if s == [] {
      assert (Escaped(s) + "\"" + x)[1..] == x && (Escaped(t) + "\"" + y)[1..] == y;
    } else {
      EscapedHead(s, x);
      EscapedHead(t, y);
      hide Escaped, CharText;
      CharUnique(s[0], t[0], Escaped(s[1..]) + "\"" + x, Escaped(t[1..]) + "\"" + y);
      EscapedUnique(s[1..], t[1..], x, y);
      assert s == [s[0]] + s[1..] && t == [t[0]] + t[1..];
    }
  }

  lemma StrUnique(s: string, t: string, x: string, y: string)
    requires StrText(s) + x == StrText(t) + y
    ensures s == t && x == y
  {
    StrTail(s, x);
    StrTail(t, y);
    EscapedUnique(s, t, x, y);
  }

  lemma StrTail(s: string, x: string)
    ensures (StrText(s) + x)[1..] == Escaped(s) + "\"" + x
  {
    hide Escaped;
  }

  /** x starts with a character that cannot continue a number. */
  predicate Delimited(x: string) {
    x == [] || x[0] in {',', ']', '}'}
  }

  lemma SplitUnique(p: string, q: string, x: string, y: string)
    requires p + x == q + y
    requires forall i :: 0 <= i < |p| ==> p[i] !in {',', ']', '}'}
    requires forall i :: 0 <= i < |q| ==> q[i] !in {',', ']', '}'}
    requires Delimited(x) && Delimited(y)
    ensures p == q && x == y
  {
    var t := p + x;
    assert forall i :: 0 <= i < |p| ==> t[i] == p[i];
    assert forall i :: 0 <= i < |q| ==> t[i] == q[i];
    assert |p| < |t| ==> t[|p|] == x[0];
    assert |q| < |t| ==> t[|q|] == y[0];
    assert |p| == |q|;
    assert p == t[..|p|] == q;
    assert x == t[|p|..] == y;
  }

  predicate IsNumber(v: Value) {
    v.Int? || v.Float?
  }

  lemma TextHead(v: Value)
    requires WellFormed(v)
    ensures |Text(v)| > 0
    ensures Text(v)[0] == 'n' <==> v.Null?
    ensures Text(v)[0] == '"' <==> v.Str?
    ensures Text(v)[0] == '[' <==> v.Arr?
    ensures Text(v)[0] == '{' <==> v.Obj?
  {
  }

  lemma NumberUnique(a: Value, b: Value, x: string, y: string)
    requires WellFormed(a) && WellFormed(b) && IsNumber(a) && IsNumber(b)
    requires Delimited(x) && Delimited(y)
    requires Text(a) + x == Text(b) + y
    ensures a == b && x == y
  {
    SplitUnique(Text(a), Text(b), x, y);
    if a.Int? && b.Int? {
      IntTextInjective(a.n, b.n);
    }
  }

  /** Drops a known opening and regroups what follows it. */
  lemma Peel(open: string, body: string, close: string, x: string)
    ensures ((open + body + close) + x)[|open|..] == body + (close + x)
  {
  }

  lemma PeelPair(sep: string, key: string, value: string, rest: string, x: string)
    ensures ((sep + key + ":" + value + rest) + x)[|sep|..] == key + (":" + (value + (rest + x)))
  {
    var whole := (sep + key + ":" + value + rest) + x;
    assert whole == sep + (key + (":" + (value + (rest + x))));
  }

  /** Two documents that continue to the same text are the same, and so are their rests. */
  lemma {:induction false} ValueUnique(a: Value, b: Value, x: string, y: string)
    requires WellFormed(a) && WellFormed(b)
    requires Delimited(x) && Delimited(y)
    requires Text(a) + x == Text(b) + y
    ensures a == b && x == y
    decreases a, 0
  {
    TextHead(a);
    TextHead(b);
    assert Text(a)[0] == (Text(a) + x)[0] == (Text(b) + y)[0] == Text(b)[0];
    match a {
      case Null =>
        assert x == (Text(a) + x)[4..] == (Text(b) + y)[4..] == y;
      case Str(s) =>
        StrUnique(s, b.s, x, y);
      case Arr(items) =>
        Peel("[", ItemsText(items, true), "]", x);
        Peel("[", ItemsText(b.items, true), "]", y);
        ItemsUnique(items, b.items, true, x, y);
      case Obj(members) =>
        Peel("{", MembersText(members, true), "}", x);
        Peel("{", MembersText(b.members, true), "}", y);
        MembersUnique(members, b.members, true, x, y);
      case _ =>
        NumberUnique(a, b, x, y);
    }
  }

  lemma {:induction false} ItemsUnique(a: seq<Value>, b: seq<Value>, first: bool, x: string, y: string)
    requires forall i :: 0 <= i < |a| ==> WellFormed(a[i])
    requires forall i :: 0 <= i < |b| ==> WellFormed(b[i])
    requires ItemsText(a, first) + ("]" + x) == ItemsText(b, first) + ("]" + y)
    ensures a == b && x == y
    decreases a, 1
  {
    var l, r := ItemsText(a, first) + ("]" + x), ItemsText(b, first) + ("]" + y);
    if a != [] { TextHead(a[0]); }
    if b != [] { TextHead(b[0]); }
    assert l[0] == r[0];
    if a == [] || b == [] {
      assert a == [] && b == [];
      assert l[1..] == x && r[1..] == y;
    } else {
      var sep := if first then "" else ",";
      var x', y' := ItemsText(a[1..], false) + ("]" + x), ItemsText(b[1..], false) + ("]" + y);
      Peel(sep, Text(a[0]), ItemsText(a[1..], false), "]" + x);
      Peel(sep, Text(b[0]), ItemsText(b[1..], false), "]" + y);
      ValueUnique(a[0], b[0], x', y');
      ItemsUnique(a[1..], b[1..], false, x, y);
      assert a == [a[0]] + a[1..] && b == [b[0]] + b[1..];
    }
  }

  lemma {:induction false} MembersUnique(a: seq<Member>, b: seq<Member>, first: bool, x: string, y: string)
    requires forall i :: 0 <= i < |a| ==> WellFormed(a[i].value)
    requires forall i :: 0 <= i < |b| ==> WellFormed(b[i].value)
    requires MembersText(a, first) + ("}" + x) == MembersText(b, first) + ("}" + y)
    ensures a == b && x == y
    decreases a, 1
  {
    var l, r := MembersText(a, first) + ("}" + x), MembersText(b, first) + ("}" + y);
    hide Text, WellFormed, Escaped;
    assert l[0] == r[0];
    if a == [] || b == [] {
      assert a == [] && b == [];
      assert l[1..] == x && r[1..] == y;
    } else {
      var sep := if first then "" else ",";
      var x', y' := MembersText(a[1..], false) + ("}" + x), MembersText(b[1..], false) + ("}" + y);
      var u, v := Text(a[0].value) + x', Text(b[0].value) + y';
      PeelPair(sep, StrText(a[0].key), Text(a[0].value), MembersText(a[1..], false), "}" + x);
      PeelPair(sep, StrText(b[0].key), Text(b[0].value), MembersText(b[1..], false), "}" + y);
      StrUnique(a[0].key, b[0].key, ":" + u, ":" + v);
      assert u == (":" + u)[1..] && v == (":" + v)[1..];
      ValueUnique(a[0].value, b[0].value, x', y');
      MembersUnique(a[1..], b[1..], false, x, y);
      assert a == [a[0]] + a[1..] && b == [b[0]] + b[1..];
    }
  }

  lemma TextUnique(a: Value, b: Value)
    requires WellFormed(a) && WellFormed(b)
    ensures Text(a) == Text(b) <==> a == b
  {
    if Text(a) == Text(b) {
      assert Text(a) + "" == Text(b) + "";
      ValueUnique(a, b, "", "");
    }
  }

  lemma {:induction false} EscapedOneLine(s: string)
    ensures '\n' !in Escaped(s)
  {
    if s != [] {
      EscapedOneLine(s[1..]);
      assert '\n' !in CharText(s[0]);
    }
  }

  /** No line break survives in the text of a value, so joined lines can be told apart. */
  lemma {:induction false} TextOneLine(v: Value)
    requires WellFormed(v)
    ensures '\n' !in Text(v)
    decreases v, 0
  {
    match v {
      case Str(s) => EscapedOneLine(s);
      case Arr(items) => ItemsOneLine(items, true);
      case Obj(members) => MembersOneLine(members, true);
      case _ =>
    }
  }

  lemma {:induction false} ItemsOneLine(items: seq<Value>, first: bool)
    requires forall i :: 0 <= i < |items| ==> WellFormed(items[i])
    ensures '\n' !in ItemsText(items, first)
    decreases items, 1
  {
    if items != [] {
      TextOneLine(items[0]);
      ItemsOneLine(items[1..], false);
    }
  }

  lemma {:induction false} MembersOneLine(members: seq<Member>, first: bool)
    requires forall i :: 0 <= i < |members| ==> WellFormed(members[i].value)
    ensures '\n' !in MembersText(members, first)
    decreases members, 1
  {
    if members != [] {
      EscapedOneLine(members[0].key);
      TextOneLine(members[0].value);
      MembersOneLine(members[1..], false);
    }
  }
}
