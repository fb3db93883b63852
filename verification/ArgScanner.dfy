/** The scanner of the offline delisting entry: it recognises exactly the printed forms of
    legal option lists, each in one way. */
module ArgScanner {
  import opened Wrappers
  import opened Text

  datatype Error =
    | PlanOnly | Unsupported(option: string) | NoLiveRequired | ValueRequired | ScopeAllRequired
    | SkuAndNoLiveRequired

  // ---- Splitting at the first equals sign ----------------------------------

  datatype Parts = Parts(option: string, joined: bool, value: string)

  /** str.partition('=') */
  function Partition(s: string): Parts {
    var r := Find(s, '=');
    if r == |s| then Parts(s, false, "") else Parts(s[..r], true, s[r + 1..])
  }

  lemma PartitionJoined(option: string, value: string)
    requires '=' !in option
    ensures Partition(Joint(option, '=', value)) == Parts(option, true, value)
  {
    FindJoint(option, '=', value);
  }

  lemma PartitionPlain(option: string)
    requires '=' !in option
    ensures Partition(option) == Parts(option, false, "")
  {
  }

  lemma PartitionRestores(s: string)
    ensures var p := Partition(s); s == if p.joined then Joint(p.option, '=', p.value) else p.option
    ensures '=' !in Partition(s).option
  {
    var r := Find(s, '=');
    if r < |s| {
      assert s == s[..r] + "=" + s[r + 1..];
    }
  }

  // ---- Words ---------------------------------------------------------------

  const PLAN := "plan"
  const SKU := "--sku"
  const SCOPE := "--scope"
  const NO_LIVE := "--no-live"
  const ALL := "all"

  predicate ValidValue(v: string) {
    v != "" && !("--" <= v)
  }

  lemma WordsDiffer()
    ensures SKU != SCOPE && SKU != NO_LIVE && SCOPE != NO_LIVE
    ensures '=' !in SKU && '=' !in SCOPE && '=' !in NO_LIVE && ValidValue(ALL)
  {
    assert |SKU| == 5 && |SCOPE| == 7 && |NO_LIVE| == 9 && ALL[0] == 'a';
  }

  // ---- The scan ------------------------------------------------------------

  datatype Counts = Counts(sku: nat, scope: nat, noLive: nat)

  datatype Opt = NoLive | Sku(value: string, joined: bool) | Scope(joined: bool)

  function Seen(counts: Counts, o: Opt): Counts {
    match o
    case NoLive => counts.(noLive := counts.noLive + 1)
    case Sku(_, _) => counts.(sku := counts.sku + 1)
    case Scope(_) => counts.(scope := counts.scope + 1)
  }

  /** One turn of the scan: refused, or an option that takes up some arguments. */
  datatype Step = Refused(error: Error) | Took(o: Opt, n: nat)

  function StepOf(args: seq<string>, counts: Counts): (step: Step)
    requires args != []
    ensures step.Took? ==> 1 <= step.n <= |args|
  {
    var p := Partition(args[0]);
    if p.option == NO_LIVE then
      if p.joined || counts.noLive != 0 then Refused(NoLiveRequired) else Took(NoLive, 1)
    else if p.option != SKU && p.option != SCOPE then Refused(Unsupported(p.option))
    else if !p.joined && |args| == 1 then Refused(ValueRequired)
    else
      var value, n := if p.joined then p.value else args[1], if p.joined then 1 else 2;
      if !ValidValue(value) then Refused(ValueRequired)
      else if p.option == SKU then Took(Sku(value, p.joined), n)
      else if value != ALL || counts.scope != 0 then Refused(ScopeAllRequired)
      else Took(Scope(p.joined), n)
  }

  /** What the scan of the remaining arguments says: none is acceptance. */
  function Scan(args: seq<string>, counts: Counts): Option<Error>
    decreases |args|
  {
    if args == [] then
      if counts.sku == 0 || counts.noLive != 1 then Some(SkuAndNoLiveRequired) else None
    else
      var step := StepOf(args, counts);
      if step.Refused? then Some(step.error) else Scan(args[step.n..], Seen(counts, step.o))
  }

  lemma ScanTurn(args: seq<string>, counts: Counts)
    requires args != []
    ensures var step := StepOf(args, counts);
            Scan(args, counts) == if step.Refused? then Some(step.error) else Scan(args[step.n..], Seen(counts, step.o))
  {
  }

  lemma ScanEnd(counts: Counts)
    ensures Scan([], counts) == if counts.sku == 0 || counts.noLive != 1 then Some(SkuAndNoLiveRequired) else None
  {
  }

  const NONE_SEEN := Counts(0, 0, 0)

  function Verdict(args: seq<string>): Option<Error> {
    if args == [] then None
    else if args[0] != PLAN then Some(PlanOnly)
    else Scan(args[1..], NONE_SEEN)
  }

  function Tallied(counts: map<string, nat>): Counts
    requires counts.Keys == {SKU, SCOPE, NO_LIVE}
  {
    Counts(counts[SKU], counts[SCOPE], counts[NO_LIVE])
  }

  function Flag(o: Opt): string {
    match o
    case NoLive => NO_LIVE
    case Sku(_, _) => SKU
    case Scope(_) => SCOPE
  }

  lemma TallyUp(counts: map<string, nat>, o: Opt)
    requires counts.Keys == {SKU, SCOPE, NO_LIVE}
    ensures Flag(o) in counts
    ensures var up := counts[Flag(o) := counts[Flag(o)] + 1];
            up.Keys == counts.Keys && Tallied(up) == Seen(Tallied(counts), o)
  {
    WordsDiffer();
    hide SKU, SCOPE, NO_LIVE;
  }

  /** One turn of the loop: an error, or the counts and the index after one option. */
  method TakeOption(args: seq<string>, index: nat, counts: map<string, nat>)
    returns (error: Option<Error>, up: map<string, nat>, next: nat)
    requires index < |args| && counts.Keys == {SKU, SCOPE, NO_LIVE}
    ensures var step := StepOf(args[index..], Tallied(counts));
            && error == (if step.Refused? then Some(step.error) else None)
            && (step.Took? ==> next == index + step.n && up.Keys == counts.Keys
                               && Tallied(up) == Seen(Tallied(counts), step.o))
  {
    WordsDiffer();
    hide Seen, Partition, ValidValue, SKU, SCOPE, NO_LIVE, ALL;
    error, up, next := None, counts, index + 1;
    ghost var rest := args[index..];
    assert rest[0] == args[index] && (|rest| > 1 ==> rest[1] == args[index + 1]);
    var p := Partition(args[index]);
    if p.option !in counts {
      return Some(Unsupported(p.option)), up, next;
    }
    up := counts[p.option := counts[p.option] + 1];
    if p.option == NO_LIVE {
      TallyUp(counts, NoLive);
      if p.joined || up[p.option] != 1 {
        error := Some(NoLiveRequired);
      }
      return;
    }
    var value := p.value;
    if !p.joined {
      if next >= |args| {
        return Some(ValueRequired), up, next;
      }
      value, next := args[next], next + 1;
    }
    TallyUp(counts, if p.option == SKU then Sku(value, p.joined) else Scope(p.joined));
    if !ValidValue(value) {
      error := Some(ValueRequired);
    } else if p.option == SCOPE && (value != ALL || up[p.option] != 1) {
      error := Some(ScopeAllRequired);
    }
  }

  method CheckCounts(counts: map<string, nat>) returns (error: Option<Error>)
    requires counts.Keys == {SKU, SCOPE, NO_LIVE}
    ensures error == Scan([], Tallied(counts))
  {
    hide SKU, SCOPE, NO_LIVE;
    if counts[SKU] == 0 || counts[NO_LIVE] != 1 {
      return Some(SkuAndNoLiveRequired);
    }
    error := None;
  }

  /** check_arguments for the offline delisting entry */
  method CheckArguments(args: seq<string>) returns (error: Option<Error>)
    ensures error == Verdict(args)
  {
    if args == [] {
      return None;
    }
    if args[0] != PLAN {
      return Some(PlanOnly);
    }
    error := ScanOptions(args);
  }

  /** The loop over the options after the first argument. */
  method ScanOptions(args: seq<string>) returns (error: Option<Error>)
    requires args != []
    ensures error == Scan(args[1..], NONE_SEEN)
  {
    WordsDiffer();
    hide Scan, StepOf, Seen, SKU, SCOPE, NO_LIVE;
    var counts: map<string, nat>, index := map[SKU := 0, SCOPE := 0, NO_LIVE := 0], 1;
    assert Tallied(counts) == NONE_SEEN;
    hide Tallied;
    while index < |args|
      invariant 1 <= index <= |args|
      invariant counts.Keys == {SKU, SCOPE, NO_LIVE}
      invariant Scan(args[1..], NONE_SEEN) == Scan(args[index..], Tallied(counts))
      decreases |args| - index
    {
      ghost var rest, step := args[index..], StepOf(args[index..], Tallied(counts));
      ScanTurn(rest, Tallied(counts));
      var refusal, up, next := TakeOption(args, index, counts);
      if refusal.Some? {
        return refusal;
      }
      assert rest[step.n..] == args[next..];
      counts, index := up, next;
    }
    assert args[index..] == [];
    error := CheckCounts(counts);
  }

  // ---- The language --------------------------------------------------------

  function PrintOne(o: Opt): (args: seq<string>)
    ensures args != []
  {
    match o
    case NoLive => [NO_LIVE]
    case Sku(v, joined) => if joined then [Joint(SKU, '=', v)] else [SKU, v]
    case Scope(joined) => if joined then [Joint(SCOPE, '=', ALL)] else [SCOPE, ALL]
  }

  function Print(opts: seq<Opt>): seq<string> {
    if opts == [] then [] else PrintOne(opts[0]) + Print(opts[1..])
  }

  function Tally(opts: seq<Opt>): Counts {
    if opts == [] then NONE_SEEN
    else
      var t := Tally(opts[1..]);
      match opts[0]
      case NoLive => t.(noLive := t.noLive + 1)
      case Sku(_, _) => t.(sku := t.sku + 1)
      case Scope(_) => t.(scope := t.scope + 1)
  }

  /** Valid values, one --no-live, some --sku, at most one --scope, counting from some seen. */
  predicate LegalAfter(opts: seq<Opt>, seen: Counts) {
    && (forall i :: 0 <= i < |opts| && opts[i].Sku? ==> ValidValue(opts[i].value))
    && seen.noLive + Tally(opts).noLive == 1
    && seen.sku + Tally(opts).sku >= 1
    && seen.scope + Tally(opts).scope <= 1
  }

  predicate Legal(opts: seq<Opt>) {
    LegalAfter(opts, NONE_SEEN)
  }

  predicate Allowed(counts: Counts, o: Opt) {
    match o
    case NoLive => counts.noLive == 0
    case Sku(v, _) => ValidValue(v)
    case Scope(_) => counts.scope == 0
  }

  /** The first word tells the option, its form and a joined value. */
  lemma FirstWord(o: Opt, rest: seq<string>)
    ensures var p := Partition((PrintOne(o) + rest)[0]);
            match o
            case NoLive => p == Parts(NO_LIVE, false, "")
            case Sku(v, joined) =>
              && p == Parts(SKU, joined, if joined then v else "")
              && (!joined ==> (PrintOne(o) + rest)[1] == v)
            case Scope(joined) => p == Parts(SCOPE, joined, if joined then ALL else "")
  {
    WordsDiffer();
    hide Partition, Joint, SKU, SCOPE, NO_LIVE, ALL;
    match o
    case NoLive => PartitionPlain(NO_LIVE);
    case Sku(v, joined) =>
      PartitionPlain(SKU);
      PartitionJoined(SKU, v);
    case Scope(joined) =>
      PartitionPlain(SCOPE);
      PartitionJoined(SCOPE, ALL);
  }

  /** The scan takes up a printed option as that option, if it is allowed there. */
  lemma StepOne(o: Opt, rest: seq<string>, counts: Counts)
    ensures var step := StepOf(PrintOne(o) + rest, counts);
            if Allowed(counts, o) then step == Took(o, |PrintOne(o)|) else step.Refused?
  {
    WordsDiffer();
    hide Partition, Joint, ValidValue, SKU, SCOPE, NO_LIVE, ALL;
    FirstWord(o, rest);
  }

  /** What the first word was, when an option is taken up. */
  lemma StepWords(args: seq<string>, counts: Counts)
    requires args != [] && StepOf(args, counts).Took?
    ensures var step, p := StepOf(args, counts), Partition(args[0]);
            && Allowed(counts, step.o)
            && p.option == Flag(step.o)
            && match step.o
               case NoLive => !p.joined && step.n == 1
               case Sku(v, joined) => p.joined == joined && ValueAt(args, p, v, step.n)
               case Scope(joined) => p.joined == joined && ValueAt(args, p, ALL, step.n)
  {
    hide Partition, ValidValue, SKU, SCOPE, NO_LIVE, ALL;
  }

  predicate ValueAt(args: seq<string>, p: Parts, v: string, n: nat) {
    if p.joined then n == 1 && v == p.value else n == 2 && |args| > 1 && v == args[1]
  }

  /** Conversely, an option taken up was printed there. */
  lemma StepPrints(args: seq<string>, counts: Counts)
    requires args != [] && StepOf(args, counts).Took?
    ensures var step := StepOf(args, counts);
            args[..step.n] == PrintOne(step.o) && Allowed(counts, step.o)
  {
    hide StepOf, Partition, Joint, Allowed, SKU, SCOPE, NO_LIVE, ALL;
    var step := StepOf(args, counts);
    StepWords(args, counts);
    PartitionRestores(args[0]);
    if step.n == 1 {
      assert PrintOne(step.o) == [args[0]];
    } else {
      assert PrintOne(step.o) == [args[0], args[1]];
    }
  }

  lemma LegalCons(o: Opt, tail: seq<Opt>, counts: Counts)
    requires counts.scope <= 1
    ensures LegalAfter([o] + tail, counts) <==> Allowed(counts, o) && LegalAfter(tail, Seen(counts, o))
  {
    hide ValidValue;
    var opts := [o] + tail;
    assert opts[1..] == tail;
    assert forall i :: 0 <= i < |tail| ==> tail[i] == opts[i + 1];
  }

  /** Printed legal options are accepted. */
  lemma {:induction false} PrintedIsAccepted(opts: seq<Opt>, counts: Counts)
    requires LegalAfter(opts, counts) && counts.scope <= 1
    ensures Scan(Print(opts), counts) == None
    decreases |opts|
  {
    if opts != [] {
      var o, rest := opts[0], opts[1..];
      assert opts == [o] + rest;
      LegalCons(o, rest, counts);
      hide StepOf, PrintOne, LegalAfter;
      PrintedIsAccepted(rest, Seen(counts, o));
      StepOne(o, Print(rest), counts);
      assert Print(opts)[|PrintOne(o)|..] == Print(rest);
    }
  }

  /** Accepted arguments are the printed form of legal options. */
  lemma {:induction false} AcceptedIsPrinted(args: seq<string>, counts: Counts) returns (opts: seq<Opt>)
    requires Scan(args, counts) == None && counts.scope <= 1
    ensures Print(opts) == args && LegalAfter(opts, counts)
    decreases |args|
  {
    hide Scan, StepOf, PrintOne;
    if args == [] {
      ScanEnd(counts);
      opts := [];
    } else {
      var step := StepOf(args, counts);
      ScanTurn(args, counts);
      StepPrints(args, counts);
      hide LegalAfter;
      var tail := AcceptedIsPrinted(args[step.n..], Seen(counts, step.o));
      opts := [step.o] + tail;
      LegalCons(step.o, tail, counts);
      assert opts[1..] == tail;
      assert args == args[..step.n] + args[step.n..];
    }
  }

  ghost predicate PrintedPlan(args: seq<string>) {
    exists opts :: Legal(opts) && args == [PLAN] + Print(opts)
  }

  /** The scanner accepts nothing at all, or `plan` with legal options in any order and
      either form; and nothing else. */
  lemma AcceptsExactly(args: seq<string>)
    ensures Verdict(args) == None <==> args == [] || PrintedPlan(args)
  {
    hide Scan, Print, LegalAfter, PLAN;
    if args != [] {
      if Verdict(args) == None {
        var opts := AcceptedIsPrinted(args[1..], NONE_SEEN);
        assert args == [PLAN] + Print(opts);
      }
      if PrintedPlan(args) {
        var opts :| Legal(opts) && args == [PLAN] + Print(opts);
        PrintedIsAccepted(opts, NONE_SEEN);
        assert args[1..] == Print(opts);
      }
    }
  }

  /** No argument list prints two option lists. */
  lemma {:induction false} PrintInjective(a: seq<Opt>, b: seq<Opt>)
    requires Print(a) == Print(b)
    ensures a == b
    decreases |a|
  {
    if a != [] && b != [] {
      HeadsAgree(a[0], Print(a[1..]), b[0], Print(b[1..]));
      PrintInjective(a[1..], b[1..]);
    }
  }

  lemma HeadsAgree(a: Opt, restA: seq<string>, b: Opt, restB: seq<string>)
    requires PrintOne(a) + restA == PrintOne(b) + restB
    ensures a == b && restA == restB
  {
    var x, y := PrintOne(a) + restA, PrintOne(b) + restB;
    FirstWord(a, restA);
    FirstWord(b, restB);
    assert a == b by {
      assert x[0] == y[0] && (|x| > 1 ==> x[1] == y[1]);
    }
    var n := |PrintOne(a)|;
    assert restA == x[n..] && restB == y[n..];
  }
}
