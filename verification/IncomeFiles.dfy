/** The directory of income files: a period pull deletes the region's overlapping files and
    writes one file, so that no day is counted twice. */
module IncomeFiles {
  import opened Wrappers
  import opened IncomeNames
  import Settlement

  type Rows = seq<Settlement.Row>

  type Files = map<string, Rows>

  predicate TwoLetters(s: string) {
    |s| == 2 && IsLetter(s[0]) && IsLetter(s[1])
  }

  type Region = s: string | TwoLetters(s) witness "TH"

  // ---- Which file covers which day -----------------------------------------

  /** The glob income_{region}_*.csv */
  predicate Globbed(name: string, region: Region) {
    |name| >= 14 && name[..10] == "income_" + region + "_" && name[|name| - 4..] == ".csv"
  }

  /** A file of the region whose name gives its days. */
  predicate Owned(name: string, region: Region) {
    Globbed(name, region) && Parse(name).Some?
  }

  predicate Covers(name: string, region: Region, d: Date) {
    Owned(name, region) && Leq(Parse(name).value.start, d) && Leq(d, Parse(name).value.end)
  }

  ghost predicate Covered(files: Files, region: Region, d: Date) {
    exists n :: n in files && Covers(n, region, d)
  }

  /** No day of the region is in two files. */
  ghost predicate Disjoint(files: Files, region: Region) {
    forall a, b, d: Date :: a in files && b in files && Covers(a, region, d) && Covers(b, region, d) ==> a == b
  }

  // ---- Cleaning up ---------------------------------------------------------

  /** Overlapping the period, as the two comparisons say it. */
  predicate Stale(name: string, region: Region, start: Day, end: Day) {
    && Owned(name, region)
    && Leq(Parse(name).value.start, end)
    && Leq(start, Parse(name).value.end)
  }

  function Cleaned(files: Files, region: Region, start: Day, end: Day): Files {
    map n | n in files && !Stale(n, region, start, end) :: files[n]
  }

  // ---- A shop's turn -------------------------------------------------------

  /** How writing the file goes; a failure may leave a torn file, or none. */
  datatype Write = Written | Broken(left: Option<Rows>)

  /** What pulling a shop gives: its fetch failed, or rows for its region. */
  datatype Pull = Unavailable | Fetched(region: Region, rows: Rows, write: Write)

  datatype Outcome = BadPeriod | Interrupted | Finished

  function AfterWrite(files: Files, name: string, rows: Rows, write: Write): Files {
    match write
    case Written => files[name := rows]
    case Broken(Some(torn)) => files[name := torn]
    case Broken(None) => files
  }

  predicate Writes(pull: Pull) {
    pull.Fetched? && pull.rows != []
  }

  function AfterShop(files: Files, pull: Pull, start: Day, end: Day): Files {
    if Writes(pull) then
      AfterWrite(Cleaned(files, pull.region, start, end), Name(pull.region, start, end), pull.rows, pull.write)
    else files
  }

  /** The shops in turn, up to the first whose write fails. */
  function AfterShops(files: Files, pulls: seq<Pull>, start: Day, end: Day): (Files, Outcome)
    decreases |pulls|
  {
    if pulls == [] then (files, Finished)
    else
      var now := AfterShop(files, pulls[0], start, end);
      if Writes(pulls[0]) && pulls[0].write.Broken? then (now, Interrupted) else AfterShops(now, pulls[1..], start, end)
  }

  function AfterPeriod(files: Files, pulls: seq<Pull>, start: Day, end: Day): (Files, Outcome) {
    if !Leq(start, end) then (files, BadPeriod) else AfterShops(files, pulls, start, end)
  }

  /** One shop of a daily pull: the same without the cleaning. */
  function AfterDay(files: Files, pull: Pull, day: Day): Files {
    if Writes(pull) then AfterWrite(files, Name(pull.region, day, day), pull.rows, pull.write) else files
  }

  /** A daily pull, up to the first shop whose write fails. */
  function AfterDays(files: Files, pulls: seq<Pull>, day: Day): (Files, Outcome)
    decreases |pulls|
  {
    if pulls == [] then (files, Finished)
    else
      var now := AfterDay(files, pulls[0], day);
      if Writes(pulls[0]) && pulls[0].write.Broken? then (now, Interrupted) else AfterDays(now, pulls[1..], day)
  }

  // ---- The methods ---------------------------------------------------------

  class IncomeDir {
    var files: Files

    /** cleanup_income_for_period, over the listed names in any order */
    method Cleanup(region: Region, start: Day, end: Day) returns (removed: set<string>)
      modifies this
      ensures files == Cleaned(old(files), region, start, end)
      ensures removed == set n | n in old(files) && Stale(n, region, start, end)
    {
      var todo := files.Keys;
      removed := {};
      while todo != {}
        invariant todo <= old(files).Keys
        invariant files == map n | n in old(files) && (n in todo || !Stale(n, region, start, end)) :: old(files)[n]
        invariant removed == set n | n in old(files) && n !in todo && Stale(n, region, start, end)
        decreases todo
      {
        var n :| n in todo;
        if Stale(n, region, start, end) {
          files := files - {n};
          removed := removed + {n};
        }
        todo := todo - {n};
      }
    }

    method WriteCsv(name: string, rows: Rows, write: Write) returns (ok: bool)
      modifies this
      ensures files == AfterWrite(old(files), name, rows, write) && ok == write.Written?
    {
      ok := write.Written?;
      match write
      case Written => files := files[name := rows];
      case Broken(Some(torn)) => files := files[name := torn];
      case Broken(None) =>
    }

    /** pull_period, given what each shop's fetch returns */
    method PullPeriod(pulls: seq<Pull>, start: Day, end: Day) returns (outcome: Outcome)
      modifies this
      ensures (files, outcome) == AfterPeriod(old(files), pulls, start, end)
    {
      if !Leq(start, end) {
        return BadPeriod;
      }
      var i := 0;
      while i < |pulls|
        invariant 0 <= i <= |pulls|
        invariant AfterShops(old(files), pulls, start, end) == AfterShops(files, pulls[i..], start, end)
      {
        var pull := pulls[i];
        assert pulls[i..][1..] == pulls[i + 1..];
        if Writes(pull) {
          var _ := Cleanup(pull.region, start, end);
          var ok := WriteCsv(Name(pull.region, start, end), pull.rows, pull.write);
          if !ok {
            return Interrupted;
          }
        }
        i := i + 1;
      }
      outcome := Finished;
    }

    /** pull_day, given what each shop's fetch returns */
    method PullDay(pulls: seq<Pull>, day: Day) returns (outcome: Outcome)
      modifies this
      ensures (files, outcome) == AfterDays(old(files), pulls, day)
    {
      var i := 0;
      while i < |pulls|
        invariant 0 <= i <= |pulls|
        invariant AfterDays(old(files), pulls, day) == AfterDays(files, pulls[i..], day)
      {
        var pull := pulls[i];
        assert pulls[i..][1..] == pulls[i + 1..];
        if Writes(pull) {
          var ok := WriteCsv(Name(pull.region, day, day), pull.rows, pull.write);
          if !ok {
            return Interrupted;
          }
        }
        i := i + 1;
      }
      outcome := Finished;
    }
  }

  // ---- What the printed name covers ----------------------------------------

  lemma PrintedIsGlobbed(region: Region, start: Day, end: Day)
    ensures Globbed(Name(region, start, end), region)
  {
    var n := Name(region, start, end);
    hide YyMmDd;
    NameFields(region, start, end);
    assert n == "income_" + region + "_" + (YyMmDd(start) + "_" + YyMmDd(end) + ".csv");
  }

  /** Within the window the written file covers exactly the requested days. */
  lemma PrintedCovers(region: Region, start: Day, end: Day, d: Date)
    requires InWindow(start) && InWindow(end)
    ensures Covers(Name(region, start, end), region, d) <==> Leq(start, d) && Leq(d, end)
  {
    hide Name, ParseDay, YyMmDd, Globbed;
    PrintedIsGlobbed(region, start, end);
    ParsePrinted(region, start, end);
    DayReadsBack(start);
    DayReadsBack(end);
  }

  lemma ParsedInWindow(name: string)
    requires Parse(name).Some?
    ensures InWindow(Parse(name).value.start) && InWindow(Parse(name).value.end)
  {
    hide ValidDate;
  }

  /** Only days of the window can be covered at all, so the written file covers every
      requested day exactly when the first and the last are in the window. */
  lemma PrintedCoversIff(region: Region, start: Day, end: Day)
    requires Leq(start, end)
    ensures (forall d: Date :: Leq(start, d) && Leq(d, end) ==> Covers(Name(region, start, end), region, d))
       <==> InWindow(start) && InWindow(end)
  {
    var n := Name(region, start, end);
    if InWindow(start) && InWindow(end) {
      forall d: Date | Leq(start, d) && Leq(d, end) ensures Covers(n, region, d) {
        PrintedCovers(region, start, end, d);
      }
    } else if Covers(n, region, start) && Covers(n, region, end) {
      hide Name, Parse, Globbed;
      ParsedInWindow(n);
      assert false;
    }
  }

  lemma OtherRegion(name: string, a: Region, b: Region)
    requires Globbed(name, a) && Globbed(name, b)
    ensures a == b
  {
    assert name[..10][7..9] == a && name[..10][7..9] == b;
  }

  // ---- What a pull leaves alone --------------------------------------------

  /** The file covers a day of the period. */
  ghost predicate Touches(name: string, region: Region, start: Day, end: Day) {
    exists d: Date :: Covers(name, region, d) && Leq(start, d) && Leq(d, end)
  }

  /** The two comparisons find exactly the files that cover a requested day, as long as a name
      does not end before it starts. */
  lemma StaleIff(name: string, region: Region, start: Day, end: Day)
    requires Leq(start, end)
    requires Owned(name, region) ==> Leq(Parse(name).value.start, Parse(name).value.end)
    ensures Stale(name, region, start, end) <==> Touches(name, region, start, end)
  {
    hide Parse, Globbed;
    if Stale(name, region, start, end) {
      var first := Parse(name).value.start;
      assert Covers(name, region, if Leq(start, first) then first else start);
    }
  }

  /** A period pull touches no other file: one that no region with rows owns, or that covers no
      requested day, and that is none of the names written, stays as it is; so everything stays
      when no shop has rows. */
  lemma {:induction false} KeepsTheRest(files: Files, pulls: seq<Pull>, start: Day, end: Day, n: string)
    requires n in files
    requires forall i :: 0 <= i < |pulls| && pulls[i].Fetched? && pulls[i].rows != [] ==>
               var region := pulls[i].region;
               && n != Name(region, start, end)
               && (Owned(n, region) ==>
                     Leq(Parse(n).value.start, Parse(n).value.end) && !Touches(n, region, start, end))
    ensures var now := AfterPeriod(files, pulls, start, end).0; n in now && now[n] == files[n]
    decreases |pulls|
  {
    if pulls != [] && Leq(start, end) {
      var pull := pulls[0];
      if pull.Fetched? && pull.rows != [] {
        StaleIff(n, pull.region, start, end);
      }
      hide Touches, Stale, Name, Parse, Globbed;
      assert n in AfterShop(files, pull, start, end) && AfterShop(files, pull, start, end)[n] == files[n];
      KeepsTheRest(AfterShop(files, pull, start, end), pulls[1..], start, end, n);
    }
  }

  // ---- Safety over runs ----------------------------------------------------

  /** A covering file that the cleaning spares shares no day with the period. */
  lemma SparedIsApart(name: string, region: Region, start: Day, end: Day, d: Date)
    requires Covers(name, region, d) && !Stale(name, region, start, end)
    ensures !(Leq(start, d) && Leq(d, end))
  {
    hide Parse, Globbed;
  }

  lemma WriteKeepsDisjoint(files: Files, pull: Pull, start: Day, end: Day, region: Region)
    requires Disjoint(files, region) && InWindow(start) && InWindow(end)
    ensures Disjoint(AfterShop(files, pull, start, end), region)
  {
    if Writes(pull) {
      var name, now := Name(pull.region, start, end), AfterShop(files, pull, start, end);
      hide Name, Covers, Stale;
      forall a, b, d: Date | a in now && b in now && Covers(a, region, d) && Covers(b, region, d) ensures a == b {
        if a == name {
          NewFileIsAlone(files, pull, start, end, region, a, b, d);
        } else if b == name {
          NewFileIsAlone(files, pull, start, end, region, b, a, d);
        }
      }
    }
  }

  lemma NewFileIsAlone(files: Files, pull: Pull, start: Day, end: Day, region: Region, a: string, b: string, d: Date)
    requires Writes(pull) && InWindow(start) && InWindow(end)
    requires a in AfterShop(files, pull, start, end) && b in AfterShop(files, pull, start, end)
    requires Covers(a, region, d) && Covers(b, region, d)
    requires a == Name(pull.region, start, end)
    ensures a == b
  {
    hide Name, Parse, Globbed;
    PrintedIsGlobbed(pull.region, start, end);
    OtherRegion(a, region, pull.region);
    PrintedCovers(region, start, end, d);
    if a != b {
      SparedIsApart(b, region, start, end, d);
    }
  }

  datatype Run = PeriodRun(pulls: seq<Pull>, start: Day, end: Day) | DayRun(pulls: seq<Pull>, day: Day)

  predicate RunInWindow(run: Run) {
    match run
    case PeriodRun(_, start, end) => InWindow(start) && InWindow(end)
    case DayRun(_, day) => InWindow(day)
  }

  function AfterRun(files: Files, run: Run): Files {
    match run
    case PeriodRun(pulls, start, end) => AfterPeriod(files, pulls, start, end).0
    case DayRun(pulls, day) => AfterDays(files, pulls, day).0
  }

  function AfterRuns(files: Files, runs: seq<Run>): Files {
    if runs == [] then files else AfterRun(AfterRuns(files, runs[..|runs| - 1]), runs[|runs| - 1])
  }

  lemma {:induction false} ShopsKeepDisjoint(files: Files, pulls: seq<Pull>, start: Day, end: Day, region: Region)
    requires Disjoint(files, region) && InWindow(start) && InWindow(end)
    ensures Disjoint(AfterShops(files, pulls, start, end).0, region)
    decreases |pulls|
  {
    if pulls != [] {
      WriteKeepsDisjoint(files, pulls[0], start, end, region);
      hide Disjoint, AfterShop;
      ShopsKeepDisjoint(AfterShop(files, pulls[0], start, end), pulls[1..], start, end, region);
    }
  }

  // ---- Coverage ------------------------------------------------------------

  /** The period's file is the only one that covers any of its days. */
  ghost predicate Served(files: Files, region: Region, start: Day, end: Day, rows: Rows) {
    var name := Name(region, start, end);
    && name in files && files[name] == rows
    && forall n, d: Date :: n in files && Leq(start, d) && Leq(d, end) ==> (Covers(n, region, d) <==> n == name)
  }

  lemma WritingServes(files: Files, pull: Pull, start: Day, end: Day)
    requires Writes(pull) && pull.write.Written? && InWindow(start) && InWindow(end)
    ensures Served(AfterShop(files, pull, start, end), pull.region, start, end, pull.rows)
  {
    var name, now := Name(pull.region, start, end), AfterShop(files, pull, start, end);
    forall n, d: Date | n in now && Leq(start, d) && Leq(d, end)
      ensures Covers(n, pull.region, d) <==> n == name
    {
      hide Covers, Stale, Name;
      PrintedCovers(pull.region, start, end, d);
      if n != name && Covers(n, pull.region, d) {
        SparedIsApart(n, pull.region, start, end, d);
        assert false;
      }
    }
  }

  lemma OtherShopServes(files: Files, pull: Pull, start: Day, end: Day, region: Region, rows: Rows)
    requires InWindow(start) && InWindow(end) && Served(files, region, start, end, rows)
    requires Writes(pull) ==> pull.region != region
    ensures Served(AfterShop(files, pull, start, end), region, start, end, rows)
  {
    if Writes(pull) {
      var name, other := Name(region, start, end), Name(pull.region, start, end);
      PrintedIsGlobbed(region, start, end);
      PrintedIsGlobbed(pull.region, start, end);
      hide Name, Parse, Globbed, Leq;
      if Globbed(name, pull.region) {
        OtherRegion(name, region, pull.region);
      }
      if Globbed(other, region) {
        OtherRegion(other, region, pull.region);
      }
      assert !Stale(name, pull.region, start, end) && name != other;
      assert forall d: Date :: !Covers(other, region, d);
    }
  }

  /** The rows of the region's last shop that had any. */
  function Latest(pulls: seq<Pull>, region: Region, seen: Option<Rows>): Option<Rows>
    decreases |pulls|
  {
    if pulls == [] then seen
    else Latest(pulls[1..], region, if Writes(pulls[0]) && pulls[0].region == region then Some(pulls[0].rows) else seen)
  }

  lemma {:induction false} ShopsServe(files: Files, pulls: seq<Pull>, start: Day, end: Day, region: Region,
                                      seen: Option<Rows>)
    requires InWindow(start) && InWindow(end) && AfterShops(files, pulls, start, end).1 == Finished
    requires seen.Some? ==> Served(files, region, start, end, seen.value)
    ensures var rows, now := Latest(pulls, region, seen), AfterShops(files, pulls, start, end).0;
            rows.Some? ==> Served(now, region, start, end, rows.value)
    decreases |pulls|
  {
    if pulls != [] {
      var pull, now := pulls[0], AfterShop(files, pulls[0], start, end);
      var next := if Writes(pull) && pull.region == region then Some(pull.rows) else seen;
      if Writes(pull) && pull.region == region {
        WritingServes(files, pull, start, end);
      } else if seen.Some? {
        OtherShopServes(files, pull, start, end, region, seen.value);
      }
      hide Served, AfterShop;
      ShopsServe(now, pulls[1..], start, end, region, next);
    }
  }

  /** A finished run leaves every requested day of every region that had rows in exactly one
      file, with the rows of that region's last shop; whatever lay in the directory before. */
  lemma PeriodServes(files: Files, pulls: seq<Pull>, start: Day, end: Day, region: Region)
    requires InWindow(start) && InWindow(end) && AfterPeriod(files, pulls, start, end).1 == Finished
    ensures var rows, now := Latest(pulls, region, None), AfterPeriod(files, pulls, start, end).0;
            rows.Some? ==> Served(now, region, start, end, rows.value)
  {
    ShopsServe(files, pulls, start, end, region, None);
  }

  /** The latest write to a file of the region, among the shops a period pull reaches. */
  function LastWrite(pulls: seq<Pull>, region: Region, seen: Option<Write>): Option<Write>
    decreases |pulls|
  {
    if pulls == [] then seen
    else
      var pull := pulls[0];
      var now := if Writes(pull) && pull.region == region then Some(pull.write) else seen;
      if Writes(pull) && pull.write.Broken? then now else LastWrite(pulls[1..], region, now)
  }

  /** The files of the region, when the latest write to one was `last`: without a write those
      there were; with one, those the cleaning spares, and the period's own if the write left
      one. */
  ghost predicate Holds(files: Files, now: Files, region: Region, start: Day, end: Day, last: Option<Write>) {
    forall n :: Globbed(n, region) ==>
      (n in now <==>
         if last.None? then n in files
         else if n == Name(region, start, end) then last.value != Broken(None)
         else n in files && !Stale(n, region, start, end))
  }

  lemma PrintedIsStale(region: Region, start: Day, end: Day)
    requires InWindow(start) && InWindow(end) && Leq(start, end)
    ensures Stale(Name(region, start, end), region, start, end)
  {
    hide Name, Globbed, Parse;
    PrintedCovers(region, start, end, start);
    PrintedCovers(region, start, end, end);
  }

  lemma NamesApart(a: Region, b: Region, start: Day, end: Day)
    requires a != b
    ensures !Globbed(Name(a, start, end), b)
  {
    hide Name;
    PrintedIsGlobbed(a, start, end);
    if Globbed(Name(a, start, end), b) {
      OtherRegion(Name(a, start, end), a, b);
      assert false;
    }
  }

  lemma NoOtherStale(name: string, a: Region, b: Region, start: Day, end: Day)
    requires a != b && Globbed(name, b)
    ensures !Stale(name, a, start, end)
  {
    hide Globbed, Parse;
    if Globbed(name, a) {
      OtherRegion(name, a, b);
      assert false;
    }
  }

  lemma OwnShopHolds(files: Files, was: Files, pull: Pull, start: Day, end: Day, last: Option<Write>)
    requires InWindow(start) && InWindow(end) && Leq(start, end) && Writes(pull)
    requires Holds(files, was, pull.region, start, end, last)
    ensures Holds(files, AfterShop(was, pull, start, end), pull.region, start, end, Some(pull.write))
  {
    PrintedIsStale(pull.region, start, end);
    hide Name, Globbed, Stale, Leq, InWindow;
  }

  lemma OtherShopHolds(files: Files, was: Files, pull: Pull, start: Day, end: Day, region: Region, last: Option<Write>)
    requires Holds(files, was, region, start, end, last) && Writes(pull) && pull.region != region
    ensures Holds(files, AfterShop(was, pull, start, end), region, start, end, last)
  {
    var now := AfterShop(was, pull, start, end);
    NamesApart(pull.region, region, start, end);
    hide Name, Globbed, Stale;
    forall n | Globbed(n, region) ensures n in now <==> n in was {
      NoOtherStale(n, pull.region, region, start, end);
    }
  }

  /** One shop's turn. */
  lemma ShopHolds(files: Files, was: Files, pull: Pull, start: Day, end: Day, region: Region, last: Option<Write>)
    requires InWindow(start) && InWindow(end) && Leq(start, end)
    requires Holds(files, was, region, start, end, last)
    ensures Holds(files, AfterShop(was, pull, start, end), region, start, end,
                  if Writes(pull) && pull.region == region then Some(pull.write) else last)
  {
    hide Holds;
    if Writes(pull) {
      if pull.region == region {
        OwnShopHolds(files, was, pull, start, end, last);
      } else {
        OtherShopHolds(files, was, pull, start, end, region, last);
      }
    }
  }

  lemma {:induction false} ShopsHold(files: Files, was: Files, pulls: seq<Pull>, start: Day, end: Day, region: Region,
                                     last: Option<Write>)
    requires InWindow(start) && InWindow(end) && Leq(start, end)
    requires Holds(files, was, region, start, end, last)
    ensures Holds(files, AfterShops(was, pulls, start, end).0, region, start, end, LastWrite(pulls, region, last))
    decreases |pulls|
  {
    hide Holds, AfterShop;
    if pulls != [] {
      var pull := pulls[0];
      var seen := if Writes(pull) && pull.region == region then Some(pull.write) else last;
      ShopHolds(files, was, pull, start, end, region, last);
      if !(Writes(pull) && pull.write.Broken?) {
        ShopsHold(files, AfterShop(was, pull, start, end), pulls[1..], start, end, region, seen);
      }
    }
  }

  /** Every file of the region that covers the day overlaps the period. */
  ghost predicate OnlyStale(files: Files, region: Region, start: Day, end: Day, d: Date) {
    forall n :: n in files && Covers(n, region, d) ==> Stale(n, region, start, end)
  }

  /** Which days a period pull loses, with whatever fetches and writes failing.  A covered day of
      the region is no longer covered if and only if a shop of the region was reached and had
      rows, every file of the day overlapped the period, and either the day lies outside the
      period or the latest write left nothing: the cleaning comes before the write. */
  lemma LostDays(files: Files, pulls: seq<Pull>, start: Day, end: Day, region: Region, d: Date)
    requires InWindow(start) && InWindow(end) && Covered(files, region, d)
    ensures var last := LastWrite(pulls, region, None);
            !Covered(AfterPeriod(files, pulls, start, end).0, region, d)
            <==> && Leq(start, end) && last.Some?
                 && OnlyStale(files, region, start, end, d)
                 && (!(Leq(start, d) && Leq(d, end)) || last.value == Broken(None))
  {
    if Leq(start, end) {
      var last, now := LastWrite(pulls, region, None), AfterPeriod(files, pulls, start, end).0;
      ShopsHold(files, files, pulls, start, end, region, None);
      hide AfterPeriod, AfterShops, LastWrite;
      LostFromHolds(files, now, start, end, region, last, d);
    }
  }

  lemma LostFromHolds(files: Files, now: Files, start: Day, end: Day, region: Region, last: Option<Write>, d: Date)
    requires InWindow(start) && InWindow(end) && Leq(start, end) && Covered(files, region, d)
    requires Holds(files, now, region, start, end, last)
    ensures !Covered(now, region, d)
       <==> && last.Some?
            && OnlyStale(files, region, start, end, d)
            && (!(Leq(start, d) && Leq(d, end)) || last.value == Broken(None))
  {
    var name := Name(region, start, end);
    PrintedCovers(region, start, end, d);
    PrintedIsStale(region, start, end);
    PrintedIsGlobbed(region, start, end);
    assert forall n :: Covers(n, region, d) ==> Globbed(n, region);
    if Leq(start, d) && Leq(d, end) {
      InsideIsStale(files, region, start, end, d);
    }
    hide Name, Covers, Stale, Leq, Globbed;
    if last.None? {
      var n :| n in files && Covers(n, region, d);
      assert n in now;
    } else {
      if !OnlyStale(files, region, start, end, d) {
        var n :| n in files && Covers(n, region, d) && !Stale(n, region, start, end);
        assert n in now;
      }
      if Covers(name, region, d) && last.value != Broken(None) {
        assert name in now;
      }
      forall n | n in now && Covers(n, region, d)
        ensures n == name || (n in files && !Stale(n, region, start, end))
      {
      }
    }
  }

  lemma InsideIsStale(files: Files, region: Region, start: Day, end: Day, d: Date)
    requires Leq(start, d) && Leq(d, end)
    ensures OnlyStale(files, region, start, end, d)
  {
    hide Parse, Globbed;
    forall n | n in files && Covers(n, region, d) ensures Stale(n, region, start, end) {
      if !Stale(n, region, start, end) {
        SparedIsApart(n, region, start, end, d);
        assert false;
      }
    }
  }

  /** So a single failed write can lose requested days that were covered before. */
  lemma FailedWriteLoses(files: Files, region: Region, rows: Rows, start: Day, end: Day, d: Date)
    requires InWindow(start) && InWindow(end) && rows != [] && Covered(files, region, d)
    requires Leq(start, d) && Leq(d, end) && Leq(start, end)
    ensures !Covered(AfterPeriod(files, [Fetched(region, rows, Broken(None))], start, end).0, region, d)
  {
    var pulls := [Fetched(region, rows, Broken(None))];
    assert LastWrite(pulls, region, None) == Some(Broken(None));
    hide Covered, AfterPeriod, LastWrite;
    InsideIsStale(files, region, start, end, d);
    LostDays(files, pulls, start, end, region, d);
  }

  // ---- What a daily pull leaves --------------------------------------------

  lemma {:induction false} DaysServe(files: Files, pulls: seq<Pull>, day: Day, region: Region, seen: Option<Rows>)
    requires AfterDays(files, pulls, day).1 == Finished
    requires seen.Some? ==> Name(region, day, day) in files && files[Name(region, day, day)] == seen.value
    ensures var rows, now := Latest(pulls, region, seen), AfterDays(files, pulls, day).0;
            rows.Some? ==> Name(region, day, day) in now && now[Name(region, day, day)] == rows.value
    decreases |pulls|
  {
    if pulls != [] {
      var pull := pulls[0];
      var next := if Writes(pull) && pull.region == region then Some(pull.rows) else seen;
      if Writes(pull) && pull.region != region {
        NamesApart(pull.region, region, day, day);
      }
      hide Name;
      DaysServe(AfterDay(files, pull, day), pulls[1..], day, region, next);
    }
  }

  /** A finished daily pull leaves, for every region that had rows, the file of the day with the
      rows of that region's last shop; and every file that it does not write stays. */
  lemma DayServes(files: Files, pulls: seq<Pull>, day: Day, region: Region)
    requires AfterDays(files, pulls, day).1 == Finished
    ensures var rows, now := Latest(pulls, region, None), AfterDays(files, pulls, day).0;
            rows.Some? ==> Name(region, day, day) in now && now[Name(region, day, day)] == rows.value
  {
    DaysServe(files, pulls, day, region, None);
  }

  /** Whatever fails, a daily pull touches no file but those of the day of regions with rows. */
  lemma {:induction false} DayKeepsTheRest(files: Files, pulls: seq<Pull>, day: Day, n: string)
    requires forall i :: 0 <= i < |pulls| && pulls[i].Fetched? && pulls[i].rows != [] ==> n != Name(pulls[i].region, day, day)
    ensures var now := AfterDays(files, pulls, day).0; (n in now <==> n in files) && (n in files ==> now[n] == files[n])
    decreases |pulls|
  {
    if pulls != [] {
      hide Name;
      DayKeepsTheRest(AfterDay(files, pulls[0], day), pulls[1..], day, n);
    }
  }

  // ---- Daily pulls ---------------------------------------------------------

  /** A daily pull keeps days counted once exactly when no other file covered its day. */
  lemma DayKeepsDisjointIff(files: Files, pull: Pull, day: Day)
    requires Writes(pull) && pull.write.Written? && InWindow(day) && Disjoint(files, pull.region)
    ensures Disjoint(AfterDay(files, pull, day), pull.region)
       <==> forall n :: n in files && Covers(n, pull.region, day) ==> n == Name(pull.region, day, day)
  {
    var name, now := Name(pull.region, day, day), AfterDay(files, pull, day);
    PrintedCovers(pull.region, day, day, day);
    hide Name, Covers;
    forall d: Date | Covers(name, pull.region, d) ensures d == day {
      PrintedCovers(pull.region, day, day, d);
    }
    assert name in now && forall n :: n in files ==> n in now;
  }

  /** So a daily pull inside an earlier, longer period counts its day twice. */
  lemma DayInsidePeriod(region: Region, start: Day, end: Day, day: Day, rows: Rows, more: Rows)
    requires InWindow(start) && InWindow(day) && InWindow(end) && start != end
    requires Leq(start, day) && Leq(day, end) && more != []
    ensures var files := map[Name(region, start, end) := rows];
            && Disjoint(files, region)
            && !Disjoint(AfterDay(files, Fetched(region, more, Written), day), region)
  {
    var period, name := Name(region, start, end), Name(region, day, day);
    PrintedCovers(region, start, end, start);
    PrintedCovers(region, start, end, day);
    PrintedCovers(region, start, end, end);
    PrintedCovers(region, day, day, start);
    PrintedCovers(region, day, day, end);
    hide Name, Covers;
    DayKeepsDisjointIff(map[period := rows], Fetched(region, more, Written), day);
    assert period in map[period := rows];
  }

  /** Whether a daily pull leaves a file of the region, whole or torn. */
  predicate Leaves(pulls: seq<Pull>, region: Region)
    decreases |pulls|
  {
    && pulls != []
    && var pull := pulls[0];
    || (Writes(pull) && pull.region == region && pull.write != Broken(None))
    || (!(Writes(pull) && pull.write.Broken?) && Leaves(pulls[1..], region))
  }

  lemma SameNameSameRegion(a: Region, b: Region, day: Day)
    ensures Name(a, day, day) == Name(b, day, day) <==> a == b
    ensures Globbed(Name(a, day, day), b) <==> a == b
  {
    PrintedIsGlobbed(a, day, day);
    PrintedIsGlobbed(b, day, day);
    if Globbed(Name(a, day, day), b) {
      OtherRegion(Name(a, day, day), a, b);
    }
  }

  /** The files of a region after a daily pull: those there were, and the day's file if a shop
      left one. */
  lemma {:induction false} FilesAfterDays(files: Files, pulls: seq<Pull>, day: Day, region: Region)
    ensures var now, name := AfterDays(files, pulls, day).0, Name(region, day, day);
            && (forall n :: n in files ==> n in now)
            && (forall n :: n in now && Globbed(n, region) ==> n in files || n == name)
            && (name in now <==> name in files || Leaves(pulls, region))
    decreases |pulls|
  {
    if pulls != [] {
      var pull := pulls[0];
      if Writes(pull) {
        SameNameSameRegion(pull.region, region, day);
      }
      hide Name, Globbed;
      FilesAfterDays(AfterDay(files, pull, day), pulls[1..], day, region);
    }
  }

  /** No other file of the region covers the day of a daily pull that leaves one. */
  ghost predicate Uncovered(files: Files, run: Run, region: Region) {
    run.DayRun? && Leaves(run.pulls, region) ==>
      forall n :: n in files && Covers(n, region, run.day) ==> n == Name(region, run.day, run.day)
  }

  lemma DaysKeepDisjointIff(files: Files, pulls: seq<Pull>, day: Day, region: Region)
    requires Disjoint(files, region) && InWindow(day)
    ensures Disjoint(AfterDays(files, pulls, day).0, region) <==> Uncovered(files, DayRun(pulls, day), region)
  {
    var name, now := Name(region, day, day), AfterDays(files, pulls, day).0;
    FilesAfterDays(files, pulls, day, region);
    PrintedCovers(region, day, day, day);
    assert forall n, d: Date :: Covers(n, region, d) ==> Globbed(n, region);
    hide Name, Covers, Leaves, AfterDays, Globbed;
    forall d: Date | Covers(name, region, d) ensures d == day {
      PrintedCovers(region, day, day, d);
    }
  }

  /** One run keeps the files of a region disjoint exactly when it is a period pull, or a daily
      one whose day no other file covered. */
  lemma RunKeepsDisjointIff(files: Files, run: Run, region: Region)
    requires Disjoint(files, region) && RunInWindow(run)
    ensures Disjoint(AfterRun(files, run), region) <==> Uncovered(files, run, region)
  {
    hide Disjoint, AfterShops, AfterDays, Uncovered, Leaves;
    match run
    case PeriodRun(pulls, start, end) =>
      ShopsKeepDisjoint(files, pulls, start, end, region);
      PeriodIsUncovered(files, run, region);
    case DayRun(pulls, day) =>
      DaysKeepDisjointIff(files, pulls, day, region);
  }

  lemma PeriodIsUncovered(files: Files, run: Run, region: Region)
    requires run.PeriodRun?
    ensures Uncovered(files, run, region)
  {
  }

  lemma RunsStep(files: Files, runs: seq<Run>, n: nat)
    requires n < |runs|
    ensures AfterRuns(files, runs[..n + 1]) == AfterRun(AfterRuns(files, runs[..n]), runs[n])
  {
    assert runs[..n + 1][..n] == runs[..n];
  }

  ghost predicate DisjointThroughout(files: Files, runs: seq<Run>, region: Region) {
    forall n :: 0 <= n <= |runs| ==> Disjoint(AfterRuns(files, runs[..n]), region)
  }

  ghost predicate UncoveredThroughout(files: Files, runs: seq<Run>, region: Region) {
    forall n :: 0 <= n < |runs| ==> Uncovered(AfterRuns(files, runs[..n]), runs[n], region)
  }

  lemma {:induction false} UncoveredKeepsDisjoint(files: Files, runs: seq<Run>, region: Region, n: nat)
    requires Disjoint(files, region) && n <= |runs| && UncoveredThroughout(files, runs, region)
    requires forall i :: 0 <= i < |runs| ==> RunInWindow(runs[i])
    ensures Disjoint(AfterRuns(files, runs[..n]), region)
  {
    hide Disjoint, Uncovered, AfterRun;
    if n > 0 {
      UncoveredKeepsDisjoint(files, runs, region, n - 1);
      RunsStep(files, runs, n - 1);
      assert Uncovered(AfterRuns(files, runs[..n - 1]), runs[n - 1], region);
      RunKeepsDisjointIff(AfterRuns(files, runs[..n - 1]), runs[n - 1], region);
    }
  }

  /** Over any sequence of period and daily pulls, with whatever fetches and writes failing, no
      day of the region is ever counted twice if and only if every daily pull that left a file
      found its day in no other one. */
  lemma RunsKeepDisjointIff(files: Files, runs: seq<Run>, region: Region)
    requires Disjoint(files, region)
    requires forall i :: 0 <= i < |runs| ==> RunInWindow(runs[i])
    ensures DisjointThroughout(files, runs, region) <==> UncoveredThroughout(files, runs, region)
  {
    hide Disjoint, Uncovered, AfterRuns, AfterRun, RunInWindow;
    if UncoveredThroughout(files, runs, region) {
      forall n | 0 <= n <= |runs| ensures Disjoint(AfterRuns(files, runs[..n]), region) {
        UncoveredKeepsDisjoint(files, runs, region, n);
      }
    }
    if DisjointThroughout(files, runs, region) {
      forall n | 0 <= n < |runs| ensures Uncovered(AfterRuns(files, runs[..n]), runs[n], region) {
        RunsStep(files, runs, n);
        assert Disjoint(AfterRuns(files, runs[..n]), region) && Disjoint(AfterRuns(files, runs[..n + 1]), region);
        RunKeepsDisjointIff(AfterRuns(files, runs[..n]), runs[n], region);
      }
    }
  }

  /** Period pulls alone never make a day count twice. */
  lemma RunsKeepDisjoint(files: Files, runs: seq<Run>, region: Region)
    requires Disjoint(files, region)
    requires forall i :: 0 <= i < |runs| ==> runs[i].PeriodRun? && RunInWindow(runs[i])
    ensures DisjointThroughout(files, runs, region)
  {
    hide Disjoint, Uncovered, AfterRuns, AfterRun, RunInWindow;
    forall n | 0 <= n < |runs| ensures Uncovered(AfterRuns(files, runs[..n]), runs[n], region) {
      PeriodIsUncovered(AfterRuns(files, runs[..n]), runs[n], region);
    }
    RunsKeepDisjointIff(files, runs, region);
  }
}
