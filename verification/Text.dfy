/** String operations on ASCII text, as Python defines them. */
module Text {

  function Upper(c: char): char {
    if 'a' <= c <= 'z' then (c as int - 32) as char else c
  }

  function UpperAll(s: string): (t: string)
    ensures |t| == |s|
  {
    seq(|s|, i requires 0 <= i < |s| => Upper(s[i]))
  }

  function Lower(c: char): char {
    if 'A' <= c <= 'Z' then (c as int + 32) as char else c
  }

  function LowerAll(s: string): (t: string)
    ensures |t| == |s|
  {
    seq(|s|, i requires 0 <= i < |s| => Lower(s[i]))
  }

  predicate OccursAt(s: string, part: string, i: nat) {
    i + |part| <= |s| && s[i..i + |part|] == part
  }

  /** Python's `part in s`. */
  predicate Contains(s: string, part: string) {
    exists i :: 0 <= i <= |s| && OccursAt(s, part, i)
  }

  predicate ContainsAny(s: string, parts: seq<string>) {
    exists k :: 0 <= k < |parts| && Contains(s, parts[k])
  }

  predicate EndsWith(s: string, suffix: string) {
    |suffix| <= |s| && s[|s| - |suffix|..] == suffix
  }

  /** The position of the first c, or the length. */
  function Find(s: string, c: char): (r: nat)
    ensures r <= |s| && (r < |s| ==> s[r] == c) && forall i :: 0 <= i < r ==> s[i] != c
  {
    if s == "" || s[0] == c then 0 else 1 + Find(s[1..], c)
  }

  function Joint(a: string, c: char, b: string): (s: string)
    ensures |s| == |a| + 1 + |b|
  {
    a + [c] + b
  }

  /** What was joined at the first c is found there. */
  lemma FindJoint(a: string, c: char, b: string)
    requires c !in a
    ensures var s := Joint(a, c, b); Find(s, c) == |a| && s[..|a|] == a && s[|a| + 1..] == b && s[|a|] == c
  {
    var s := Joint(a, c, b);
    assert s[|a|] == c;
    assert forall i :: 0 <= i < |a| ==> s[i] == a[i];
  }

  /** s.count(c) */
  function Count(s: string, c: char): nat {
    if s == "" then 0 else (if s[0] == c then 1 else 0) + Count(s[1..], c)
  }

  lemma {:induction false} CountAbsent(s: string, c: char)
    ensures Count(s, c) == 0 <==> c !in s
  {
    if s != "" {
      CountAbsent(s[1..], c);
      assert s == [s[0]] + s[1..];
    }
  }

  lemma {:induction false} CountConcat(a: string, b: string, c: char)
    ensures Count(a + b, c) == Count(a, c) + Count(b, c)
  {
    if a == "" {
      assert a + b == b;
    } else {
      assert (a + b)[1..] == a[1..] + b;
      CountConcat(a[1..], b, c);
    }
  }

  lemma CountJoint(a: string, c: char, b: string)
    ensures Count(Joint(a, c, b), c) == Count(a, c) + 1 + Count(b, c)
  {
    CountConcat(a + [c], b, c);
    CountConcat(a, [c], c);
    assert [c][1..] == "";
  }

  /** There is exactly one c if there is a first one and none behind it. */
  lemma {:induction false} OnceIff(s: string, c: char)
    ensures Count(s, c) == 1 <==> Find(s, c) < |s| && c !in s[Find(s, c) + 1..]
  {
    if s != "" {
      var t := s[1..];
      if s[0] == c {
        CountAbsent(t, c);
      } else {
        OnceIff(t, c);
        var k := Find(t, c);
        assert Find(s, c) == 1 + k;
        if k < |t| {
          assert s[k + 2..] == t[k + 1..];
        }
      }
    }
  }

  /** s.replace(c, "") */
  function Remove(s: string, c: char): (t: string)
    ensures c !in t && |t| <= |s|
  {
    if s == "" then "" else (if s[0] == c then "" else [s[0]]) + Remove(s[1..], c)
  }

  lemma Regroup(a: string, b: string, c: string)
    ensures a + (b + c) == (a + b) + c
  {
  }

  lemma {:induction false} RemoveConcat(a: string, b: string, c: char)
    ensures Remove(a + b, c) == Remove(a, c) + Remove(b, c)
  {
    if a == "" {
      assert a + b == b;
    } else {
      assert (a + b)[1..] == a[1..] + b;
      RemoveConcat(a[1..], b, c);
      Regroup(if a[0] == c then "" else [a[0]], Remove(a[1..], c), Remove(b, c));
    }
  }

  lemma {:induction false} RemoveAbsent(s: string, c: char)
    requires c !in s
    ensures Remove(s, c) == s
  {
    if s != "" {
      RemoveAbsent(s[1..], c);
      assert s == [s[0]] + s[1..];
    }
  }

  lemma RemoveJoint(a: string, c: char, b: string)
    ensures Remove(Joint(a, c, b), c) == Remove(a, c) + Remove(b, c)
  {
    assert Remove([c], c) == "";
    hide Remove;
    RemoveConcat(a + [c], b, c);
    RemoveConcat(a, [c], c);
  }

  // ---- Stripping -----------------------------------------------------------

  predicate IsSpace(c: char) {
    c == ' ' || 9 <= c as int <= 13 || 28 <= c as int <= 31
  }

  function StripLeft(s: string): (t: string)
    ensures t == "" || !IsSpace(t[0])
  {
    if s != "" && IsSpace(s[0]) then StripLeft(s[1..]) else s
  }

  function StripRight(s: string): (t: string)
    ensures t == "" || !IsSpace(t[|t| - 1])
    ensures t <= s
  {
    if s != "" && IsSpace(s[|s| - 1]) then StripRight(s[..|s| - 1]) else s
  }

  /** s.strip() */
  function Strip(s: string): (t: string)
    ensures t == "" || (!IsSpace(t[0]) && !IsSpace(t[|t| - 1]))
  {
    StripRight(StripLeft(s))
  }

  lemma StripKeeps(s: string)
    requires s != "" ==> !IsSpace(s[0]) && !IsSpace(s[|s| - 1])
    ensures Strip(s) == s
  {
  }
}
