/** Sorting lines and joining them: the sorted, joined text is a canonical form of
    the multiset of lines. */
module Lines {

  /** Code point order, as Python compares strings. */
  predicate Leq(a: string, b: string) {
    a == [] || (b != [] && (a[0] < b[0] || (a[0] == b[0] && Leq(a[1..], b[1..]))))
  }

  lemma LeqTotal(a: string, b: string)
    ensures Leq(a, b) || Leq(b, a)
  {
  }

  lemma {:induction false} LeqAntisymmetric(a: string, b: string)
    requires Leq(a, b) && Leq(b, a)
    ensures a == b
  {
    if a != [] && b != [] {
      LeqAntisymmetric(a[1..], b[1..]);
      assert a == [a[0]] + a[1..] && b == [b[0]] + b[1..];
    }
  }

  lemma {:induction false} LeqTransitive(a: string, b: string, c: string)
    requires Leq(a, b) && Leq(b, c)
    ensures Leq(a, c)
  {
    if a != [] && a[0] == b[0] && b[0] == c[0] {
      LeqTransitive(a[1..], b[1..], c[1..]);
    }
  }

  predicate Sorted(lines: seq<string>) {
    forall i, j :: 0 <= i < j < |lines| ==> Leq(lines[i], lines[j])
  }

  function Insert(line: string, lines: seq<string>): (r: seq<string>)
    requires Sorted(lines)
    ensures Sorted(r)
    ensures multiset(r) == multiset(lines) + multiset{line}
    ensures |r| == |lines| + 1
  {
    if lines == [] then [line]
    else if Leq(line, lines[0]) then
      InsertFront(line, lines);
      [line] + lines
    else
      LeqTotal(line, lines[0]);
      var rest := Insert(line, lines[1..]);
      InsertBehind(line, lines, rest);
      [lines[0]] + rest
  }

  lemma InsertFront(line: string, lines: seq<string>)
    requires Sorted(lines) && lines != [] && Leq(line, lines[0])
    ensures Sorted([line] + lines)
    ensures multiset([line] + lines) == multiset(lines) + multiset{line}
  {
    forall j | 0 <= j < |lines| ensures Leq(line, lines[j]) {
      if j > 0 { LeqTransitive(line, lines[0], lines[j]); }
    }
  }

  lemma InsertBehind(line: string, lines: seq<string>, rest: seq<string>)
    requires Sorted(lines) && lines != [] && Leq(lines[0], line)
    requires Sorted(rest) && multiset(rest) == multiset(lines[1..]) + multiset{line}
    ensures Sorted([lines[0]] + rest)
    ensures multiset([lines[0]] + rest) == multiset(lines) + multiset{line}
  {
    assert lines == [lines[0]] + lines[1..];
    forall j | 0 <= j < |rest| ensures Leq(lines[0], rest[j]) {
      assert rest[j] in multiset(rest);
      if rest[j] != line {
        assert rest[j] in lines[1..];
        var k :| 0 <= k < |lines[1..]| && lines[1..][k] == rest[j];
        assert Leq(lines[0], lines[k + 1]);
      }
    }
  }

  function Sort(lines: seq<string>): (r: seq<string>)
    ensures Sorted(r)
    ensures multiset(r) == multiset(lines)
    ensures |r| == |lines|
  {
    if lines == [] then []
    else
      assert lines == [lines[0]] + lines[1..];
      Insert(lines[0], Sort(lines[1..]))
  }

  lemma SameHead(a: seq<string>, b: seq<string>)
    requires Sorted(a) && Sorted(b) && multiset(a) == multiset(b) && a != [] && b != []
    ensures a[0] == b[0]
  {
    assert a[0] in multiset(b) && b[0] in multiset(a);
    var i :| 0 <= i < |b| && b[i] == a[0];
    var j :| 0 <= j < |a| && a[j] == b[0];
    if i > 0 && j > 0 { LeqAntisymmetric(a[0], b[0]); }
  }

  lemma TailElements(a: seq<string>)
    requires a != []
    ensures multiset(a[1..]) == multiset(a) - multiset{a[0]}
  {
    assert a == [a[0]] + a[1..];
  }

  /** Two sorted sequences with the same elements are the same sequence. */
  lemma {:induction false} SortedUnique(a: seq<string>, b: seq<string>)
    requires Sorted(a) && Sorted(b) && multiset(a) == multiset(b)
    ensures a == b
  {
    assert |a| == |multiset(a)| == |multiset(b)| == |b|;
    if a != [] {
      SameHead(a, b);
      TailElements(a);
      TailElements(b);
      SortedUnique(a[1..], b[1..]);
      assert a == [a[0]] + a[1..] && b == [b[0]] + b[1..];
    }
  }

  /** sep.join(lines), for a separator of one character. */
  function Join(lines: seq<string>, sep: char): string {
    if lines == [] then ""
    else if |lines| == 1 then lines[0]
    else lines[0] + [sep] + Join(lines[1..], sep)
  }

  /** A line that can be told from its neighbours in a joined text. */
  predicate IsLine(s: string, sep: char) {
    s != "" && sep !in s
  }

  predicate AllLines(lines: seq<string>, sep: char) {
    forall i :: 0 <= i < |lines| ==> IsLine(lines[i], sep)
  }

  /** What is joined behind the first line: nothing, or a separator and the other lines. */
  function Behind(lines: seq<string>, sep: char): string
    requires lines != []
  {
    if |lines| == 1 then "" else [sep] + Join(lines[1..], sep)
  }

  lemma FirstLineUnique(p: string, q: string, x: string, y: string, sep: char)
    requires sep !in p && sep !in q
    requires x == "" || x[0] == sep
    requires y == "" || y[0] == sep
    requires p + x == q + y
    ensures p == q && x == y
  {
    var t := p + x;
    assert forall i :: 0 <= i < |p| ==> t[i] == p[i];
    assert forall i :: 0 <= i < |q| ==> t[i] == q[i];
    assert |p| < |t| ==> t[|p|] == x[0];
    assert |q| < |t| ==> t[|q|] == y[0];
    assert |p| == |q|;
    assert p == t[..|p|] == q;
    assert x == t[|p|..] == y;
  }

  lemma JoinSplit(lines: seq<string>, sep: char)
    requires AllLines(lines, sep)
    requires lines != []
    ensures Join(lines, sep) == lines[0] + Behind(lines, sep)
    ensures Join(lines, sep) != ""
  {
    assert IsLine(lines[0], sep);
  }

  lemma {:induction false} JoinUnique(a: seq<string>, b: seq<string>, sep: char)
    requires AllLines(a, sep) && AllLines(b, sep)
    requires Join(a, sep) == Join(b, sep)
    ensures a == b
  {
    if a == [] || b == [] {
      if a != [] { JoinSplit(a, sep); }
      if b != [] { JoinSplit(b, sep); }
    } else {
      JoinSplit(a, sep);
      JoinSplit(b, sep);
      assert IsLine(a[0], sep) && IsLine(b[0], sep);
      FirstLineUnique(a[0], b[0], Behind(a, sep), Behind(b, sep), sep);
      assert |a| == 1 <==> |b| == 1;
      if |a| > 1 {
        var u, v := a[1..], b[1..];
        assert Behind(a, sep)[1..] == Join(u, sep) && Behind(b, sep)[1..] == Join(v, sep);
        JoinUnique(u, v, sep);
        assert a == [a[0]] + u && b == [b[0]] + v;
      }
    }
  }

  /** Equal exactly when the lines are the same up to their order. */
  lemma SortedJoinCanonical(a: seq<string>, b: seq<string>, sep: char)
    requires AllLines(a, sep) && AllLines(b, sep)
    ensures Join(Sort(a), sep) == Join(Sort(b), sep) <==> multiset(a) == multiset(b)
  {
    if multiset(a) == multiset(b) {
      SortedUnique(Sort(a), Sort(b));
    }
    if Join(Sort(a), sep) == Join(Sort(b), sep) {
      SortKeepsLines(a, sep);
      SortKeepsLines(b, sep);
      JoinUnique(Sort(a), Sort(b), sep);
    }
  }

  lemma SortKeepsLines(a: seq<string>, sep: char)
    requires AllLines(a, sep)
    ensures AllLines(Sort(a), sep)
  {
    forall i | 0 <= i < |Sort(a)| ensures IsLine(Sort(a)[i], sep) {
      assert Sort(a)[i] in multiset(Sort(a));
      assert Sort(a)[i] in a;
    }
  }
}
