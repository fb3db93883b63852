/** The supervisor that owns one service process inside a Job.  Every call to the
    outside may fail; what is proved holds for every sequence of replies, and at every
    point of the run, because the run may be cut anywhere. */
module SteadyOwner {
  import opened Wrappers

  /** What a call to the outside gives back: it raises, or it answers a number (a count,
      or 0 and 1 for no and yes). */
  datatype Reply = Raises | Answers(n: nat)

  /** How a piece of the run ends.  `Cut`: no further replies were observed. */
  datatype Flow = Go | Raise | Cut

  datatype Status =
    | Starting | PreJobFailed | StartFailed | Running
    | Retired | RetirementUnknown | RetiredAfterUnknown

  /** How a question ends; Fault is an error. */
  datatype Answer = No | Yes | Fault

  function Said(yes: bool): Answer {
    if yes then Yes else No
  }

  /** The latest membership count, unless the latest query failed or there was none. */
  datatype Count = Uncounted | Count(n: nat)

  /** What a yes-or-no question is about. */
  datatype Topic = PortFree | LogOpens | ReadyThere | ReadyNamed | ChecksPass | StopThere | StopNamed

  /** The two loops that have a deadline. */
  datatype Phase = Readiness | Cleanup

  /** The calls, with their results; Begun stands before the first.  An owner.json that could not be saved is torn. */
  datatype Event =
    | Begun
    | Prepared(ok: bool)
    | Save(status: Status, ok: bool)
    | Published(ok: bool)
    | JobConfigured(ok: bool)
    | Spawned(ok: bool)
    | Enrolled(ok: bool)
    | StartSent(ok: bool)
    | Active(count: Count)
    | Polled(exited: Answer)
    | Killed(ok: bool)
    | Waited(ok: bool)
    | JobTerminated(ok: bool)
    | Checked(about: Topic, yes: Answer)
    | DeadlineSet(phase: Phase, ok: bool)
    | Clock(phase: Phase, within: Answer)
    | Slept(ok: bool)
    | HandleClosed(ok: bool)

  // ---- What a safe run looks like ------------------------------------------

  predicate IsRetired(s: Status) {
    s == Retired || s == RetiredAfterUnknown
  }

  /** The questions that must be answered with yes.  That there is no ready file yet, that it
      names no process of the Job, or that there is no STOP.json, is no refusal. */
  predicate MustBeYes(about: Topic) {
    about.PortFree? || about.LogOpens? || about.ChecksPass? || about.StopNamed?
  }

  /** The call failed, or the answer was a no that ends the service. */
  predicate IsRefusal(e: Event) {
    match e
    case Begun => false
    case Prepared(ok) => !ok
    case Save(_, ok) => !ok
    case Published(ok) => !ok
    case JobConfigured(ok) => !ok
    case Spawned(ok) => !ok
    case Enrolled(ok) => !ok
    case StartSent(ok) => !ok
    case Active(count) => count.Uncounted?
    case Polled(exited) => exited == Fault
    case Killed(ok) => !ok
    case Waited(ok) => !ok
    case JobTerminated(ok) => !ok
    case Checked(about, yes) => yes == Fault || (MustBeYes(about) && yes == No)
    case DeadlineSet(_, ok) => !ok
    case Clock(_, within) => within == Fault
    case Slept(ok) => !ok
    case HandleClosed(ok) => !ok
  }

  /** What ends the service: a refusal, a missed deadline for its readiness, its exit, or a
      STOP that names this run. */
  predicate IsReason(e: Event) {
    || IsRefusal(e)
    || match e
       case Polled(exited) => exited == Yes
       case Waited(ok) => ok
       case Clock(phase, within) => phase == Readiness && within == No
       case Checked(about, yes) => about == StopNamed && yes == Yes
       case _ => false
  }

  /** Steps towards a running service. */
  predicate IsForward(e: Event) {
    match e
    case Save(status, _) => status == Starting || status == Running
    case Published(_) => true
    case JobConfigured(_) => true
    case Spawned(_) => true
    case Enrolled(_) => true
    case StartSent(_) => true
    case Checked(_, _) => true
    case DeadlineSet(phase, _) => phase == Readiness
    case Clock(phase, _) => phase == Readiness
    case _ => false
  }

  /** Steps of an ending run. */
  predicate IsEnding(e: Event) {
    match e
    case Save(status, _) => status != Starting && status != Running
    case Killed(_) => true
    case Waited(_) => true
    case JobTerminated(_) => true
    case DeadlineSet(phase, _) => phase == Cleanup
    case Clock(phase, _) => phase == Cleanup
    case HandleClosed(_) => true
    case _ => false
  }

  /** How far a run has come: the Job is there, the service is recorded as running, the Job is
      being emptied, a doubtful retirement was recorded, the handle is closed. */
  datatype Stage = Fresh | JobThere | Serving | Emptying | Doubted | Closed

  /** What a trace has established: how far it has come, the events seen, the latest membership
      count, whether the latest save of owner.json succeeded with a retired status, whether
      there is a reason to end, whether anything was refused, and the last event. */
  datatype Facts = Facts(stage: Stage, seen: set<Event>, active: Count, retiredOnDisk: bool, ending: bool, refused: bool,
                         last: Event)

  const NOTHING := Facts(Fresh, {}, Uncounted, false, false, false, Begun)

  function NextStage(stage: Stage, e: Event): Stage {
    match e
    case JobConfigured(ok) => if ok then JobThere else stage
    case Save(status, ok) =>
      if status == Running && ok then Serving else if status == RetirementUnknown then Doubted else stage
    case DeadlineSet(phase, ok) => if phase == Cleanup && ok then Emptying else stage
    case HandleClosed(ok) => if ok then Closed else stage
    case _ => stage
  }

  function After(k: Facts, e: Event): Facts {
    Facts(NextStage(k.stage, e), k.seen + {e}, if e.Active? then e.count else k.active,
          if e.Save? then e.ok && IsRetired(e.status) else k.retiredOnDisk,
          k.ending || IsReason(e), k.refused || IsRefusal(e), e)
  }

  function Known(t: seq<Event>): Facts {
    if t == [] then NOTHING else After(Known(t[..|t| - 1]), t[|t| - 1])
  }

  predicate ExitSeen(k: Facts) {
    Polled(Yes) in k.seen || Waited(true) in k.seen
  }

  /** The child is gone, or there is none. */
  predicate ChildGone(k: Facts) {
    Spawned(true) in k.seen ==> ExitSeen(k)
  }

  /** The Job was seen empty, and the child, if there is one, gone. */
  predicate Quiet(k: Facts) {
    k.active == Count(0) && ChildGone(k)
  }

  /** The end of the Job was asked for, whether or not the call succeeded. */
  predicate Terminated(k: Facts) {
    JobTerminated(true) in k.seen || JobTerminated(false) in k.seen
  }

  /** The child was waited for, or could not be. */
  predicate Awaited(k: Facts) {
    Waited(true) in k.seen || Waited(false) in k.seen || Killed(false) in k.seen
  }

  /** The Job was seen empty or ended, and the child is gone or was awaited. */
  predicate Stopped(k: Facts) {
    (k.active == Count(0) || Terminated(k)) && (ChildGone(k) || Awaited(k))
  }

  /** Why a retirement may be recorded as unknown: the Job could not be counted, or was not
      empty in time, or the child is not known to be gone or only since just now, or a true record
      was not saved. */
  predicate Doubtful(k: Facts) {
    || (!Quiet(k) && (k.active.Uncounted? || k.active == Count(0) || Clock(Cleanup, No) in k.seen))
    || k.last == Save(Retired, false) || k.last == Polled(Yes) || k.stage == Doubted
  }

  /** No question that was just answered with "not yet" is asked again at once. */
  predicate Rested(k: Facts) {
    k.last.Checked? ==> k.last.yes != No
  }

  /** What must stand before a save of owner.json. */
  predicate MaySave(k: Facts, status: Status) {
    match status
    case Starting => k.last == Prepared(true)
    case PreJobFailed => k.last == JobConfigured(false)
    case StartFailed => false
    case Running => k.stage == JobThere && Checked(ChecksPass, Yes) in k.seen && k.last.Active?
    case Retired => Quiet(k) && k.stage == Emptying
    case RetirementUnknown => Doubtful(k) && (k.stage == Emptying || k.stage == Doubted)
    case RetiredAfterUnknown => Quiet(k) && k.stage == Doubted
  }

  /** The order of the questions. */
  predicate MayAsk(k: Facts, about: Topic) {
    match about
    case PortFree => k.last == JobConfigured(true)
    case LogOpens => k.last == Checked(PortFree, Yes)
    case ReadyThere => k.last == Clock(Readiness, Yes)
    case ReadyNamed => k.last == Checked(ReadyThere, Yes)
    case ChecksPass => k.last == Checked(ReadyNamed, Yes) && StartSent(true) in k.seen
    case StopThere => k.stage == Serving && k.last == Polled(No)
    case StopNamed => k.stage == Serving && k.last == Checked(StopThere, Yes)
  }

  /** What must stand before an event, besides a reason to end or none. */
  predicate InOrder(k: Facts, e: Event) {
    match e
    case Begun => false
    case Prepared(_) => k.last == Begun
    case Save(status, _) => MaySave(k, status)
    case Published(_) => k.last == Save(Starting, true)
    case JobConfigured(_) => k.stage == Fresh && k.last == Published(true)
    case Spawned(_) => Published(true) in k.seen && k.last == Checked(LogOpens, Yes)
    case Enrolled(_) => k.last == Spawned(true)
    case StartSent(_) => Published(true) in k.seen && Spawned(true) in k.seen && Enrolled(true) in k.seen && k.last.Active?
    case DeadlineSet(phase, _) => if phase == Readiness then k.last == StartSent(true) else Stopped(k)
    case Clock(phase, _) =>
      if phase == Readiness then k.stage == JobThere && k.last == Polled(No) else k.stage == Emptying
    case Checked(about, _) => MayAsk(k, about)
    case Polled(_) => Spawned(true) in k.seen && !ExitSeen(k) && Rested(k)
    case Killed(_) => Spawned(true) in k.seen && StartSent(true) !in k.seen
    case Waited(_) => Spawned(true) in k.seen && !ExitSeen(k)
    case JobTerminated(_) => k.active != Count(0)
    case HandleClosed(_) => (k.stage == Emptying || k.stage == Doubted) && Quiet(k) && k.retiredOnDisk
    case _ => true
  }

  /** An event is justified in its order; a step towards a running service only while there is
      no reason to end, and a step of the end only once there is one. */
  predicate Justified(k: Facts, e: Event) {
    InOrder(k, e) && (IsForward(e) ==> !k.ending) && (IsEnding(e) ==> k.ending)
  }

  predicate Safe(t: seq<Event>) {
    t == [] || (Safe(t[..|t| - 1]) && Justified(Known(t[..|t| - 1]), t[|t| - 1]))
  }

  lemma Append(t: seq<Event>, e: Event)
    ensures Known(t + [e]) == After(Known(t), e)
    ensures Safe(t + [e]) <==> Safe(t) && Justified(Known(t), e)
  {
    assert (t + [e])[..|t|] == t;
  }

  /** Whatever is cut off the end, what is left of a safe run is safe. */
  lemma {:induction false} PrefixSafe(t: seq<Event>, n: nat)
    requires Safe(t) && n <= |t|
    ensures Safe(t[..n])
    ensures n < |t| ==> Justified(Known(t[..n]), t[n])
    decreases |t|
  {
    if n < |t| - 1 {
      PrefixSafe(t[..|t| - 1], n);
      assert t[..|t| - 1][..n] == t[..n];
    } else if n == |t| {
      assert t[..n] == t;
    }
  }

  lemma {:induction false} LastActiveAt(t: seq<Event>) returns (a: nat)
    requires Known(t).active.Count?
    ensures a < |t| && t[a] == Active(Known(t).active)
    ensures forall k :: a < k < |t| ==> !t[k].Active?
  {
    if t[|t| - 1].Active? {
      a := |t| - 1;
    } else {
      a := LastActiveAt(t[..|t| - 1]);
    }
  }

  lemma {:induction false} LastSaveAt(t: seq<Event>) returns (s: nat)
    requires Known(t).retiredOnDisk
    ensures s < |t| && t[s].Save? && t[s].ok && IsRetired(t[s].status)
    ensures forall k :: s < k < |t| ==> !t[k].Save?
  {
    if t[|t| - 1].Save? {
      s := |t| - 1;
    } else {
      s := LastSaveAt(t[..|t| - 1]);
    }
  }

  lemma {:induction false} SeenIff(t: seq<Event>)
    ensures forall e :: e in Known(t).seen <==> e in t
  {
    if t != [] {
      SeenIff(t[..|t| - 1]);
      assert t == t[..|t| - 1] + [t[|t| - 1]];
    }
  }

  /** Read from its end, a safe run that closes the handle at i saved a retired status at
      s < i, not overwritten since, and had by then seen the child gone and, as the latest
      membership query at a < s, an empty Job; the latest query before the close found it
      empty too. */
  lemma ClosedMeansRetired(t: seq<Event>, i: nat) returns (a: nat, s: nat, last: nat)
    requires Safe(t) && i < |t| && t[i].HandleClosed?
    ensures a < s < i && last < i
    ensures t[a] == t[last] == Active(Count(0))
    ensures t[s].Save? && t[s].ok && IsRetired(t[s].status)
    ensures forall k :: s < k < i ==> !t[k].Save?
    ensures forall k :: a < k < s || last < k < i ==> !t[k].Active?
    ensures Spawned(true) in t[..s] ==> Polled(Yes) in t[..s] || Waited(true) in t[..s]
  {
    hide Known, After, Safe;
    PrefixSafe(t, i);
    s := LastSaveAt(t[..i]);
    last := LastActiveAt(t[..i]);
    PrefixSafe(t, s);
    a := LastActiveAt(t[..s]);
    SeenIff(t[..s]);
  }

  /** A service is recorded as running only after its enrolled child was sent START, and after it
      declared itself from inside the Job and passed its checks. */
  lemma RunningMeansStarted(t: seq<Event>, i: nat) returns (a: nat)
    requires Safe(t) && i < |t| && t[i].Save? && t[i].status == Running
    ensures a < i && t[a] == StartSent(true) && Enrolled(true) in t[..a] && Published(true) in t[..a]
    ensures Checked(ReadyNamed, Yes) in t[..i] && Checked(ChecksPass, Yes) in t[..i]
  {
    hide Known, Safe;
    PrefixSafe(t, i);
    SeenIff(t[..i]);
    var c :| 0 <= c < i && t[..i][c] == Checked(ChecksPass, Yes);
    PrefixSafe(t, c);
    SeenIff(t[..c]);
    a :| 0 <= a < c && t[..c][a] == StartSent(true);
    assert t[a] == StartSent(true);
    StartMeansEnrolled(t, a);
    LastIsLast(t[..c]);
    assert t[..i][c - 1] == t[..c][c - 1] == Checked(ReadyNamed, Yes);
  }

  lemma LastIsLast(t: seq<Event>)
    requires t != []
    ensures Known(t).last == t[|t| - 1]
  {
  }

  /** START is sent only to an enrolled child, after the locator names this owner. */
  lemma StartMeansEnrolled(t: seq<Event>, i: nat)
    requires Safe(t) && i < |t| && t[i].StartSent?
    ensures Published(true) in t[..i] && Spawned(true) in t[..i] && Enrolled(true) in t[..i]
  {
    PrefixSafe(t, i);
    SeenIff(t[..i]);
  }

  lemma {:induction false} EndingMeansReason(t: seq<Event>)
    ensures Known(t).ending <==> exists k :: 0 <= k < |t| && IsReason(t[k])
  {
    if t != [] {
      hide IsReason, NextStage;
      var before := t[..|t| - 1];
      EndingMeansReason(before);
      if Known(before).ending {
        var k :| 0 <= k < |before| && IsReason(before[k]);
        assert IsReason(t[k]);
      }
    }
  }

  /** The stage of a run tells whether it was recorded as running, until it ends. */
  lemma {:induction false} ServingIff(t: seq<Event>)
    requires Safe(t)
    ensures Known(t).stage == Serving ==> Save(Running, true) in t
    ensures Known(t).stage == JobThere ==> Save(Running, true) !in t
    ensures Known(t).stage == Fresh ==> Save(Running, true) !in t && JobConfigured(true) !in t
  {
    if t != [] {
      var before, e := t[..|t| - 1], t[|t| - 1];
      ServingIff(before);
      assert t == before + [e];
    }
  }

  /** The first reason to end. */
  lemma {:induction false} FirstReason(t: seq<Event>) returns (e: nat)
    requires exists k :: 0 <= k < |t| && IsReason(t[k])
    ensures e < |t| && IsReason(t[e]) && forall k :: 0 <= k < e ==> !IsReason(t[k])
  {
    hide IsReason;
    var last := t[|t| - 1];
    if exists k :: 0 <= k < |t| - 1 && IsReason(t[k]) {
      var k :| 0 <= k < |t| - 1 && IsReason(t[k]);
      assert IsReason(t[..|t| - 1][k]);
      e := FirstReason(t[..|t| - 1]);
      assert forall j :: 0 <= j < e ==> t[j] == t[..|t| - 1][j];
    } else {
      e := |t| - 1;
    }
  }

  /** A step of the end at i has a reason.  Up to the first, at e, no step of the end is made, and
      behind it no step towards a running service.  It is a refusal; or a deadline missed before
      the service was recorded as running; or the exit of the child; or a STOP that names this
      run, and then the service was recorded as running before. */
  lemma EndsForAReason(t: seq<Event>, i: nat) returns (e: nat)
    requires Safe(t) && i < |t| && IsEnding(t[i])
    ensures e < i && IsReason(t[e])
    ensures forall k :: 0 <= k < e ==> !IsReason(t[k]) && !IsEnding(t[k])
    ensures forall k :: e < k < |t| ==> !IsForward(t[k])
    ensures || IsRefusal(t[e])
            || (t[e] == Clock(Readiness, No) && Save(Running, true) !in t[..e])
            || t[e] == Polled(Yes)
            || (t[e] == Checked(StopNamed, Yes) && Save(Running, true) in t[..e])
  {
    hide IsReason, Known, Safe, IsForward, IsEnding, InOrder, IsRefusal;
    PrefixSafe(t, i);
    EndingMeansReason(t[..i]);
    var k :| 0 <= k < i && IsReason(t[..i][k]);
    assert IsReason(t[k]);
    e := FirstReason(t[..i]);
    assert t[..i][e] == t[e] && forall k :: 0 <= k < e ==> t[..i][k] == t[k];
    forall k | 0 <= k < e ensures !IsEnding(t[k]) {
      PrefixSafe(t, k);
      EndingMeansReason(t[..k]);
      assert forall j :: 0 <= j < k ==> t[..k][j] == t[j];
    }
    forall k | e < k < |t| ensures !IsForward(t[k]) {
      PrefixSafe(t, k);
      assert t[..k][e] == t[e];
      EndingMeansReason(t[..k]);
    }
    FirstReasonIs(t, e);
  }

  lemma FirstReasonIs(t: seq<Event>, e: nat)
    requires Safe(t) && e < |t| && IsReason(t[e]) && forall k :: 0 <= k < e ==> !IsReason(t[k])
    ensures || IsRefusal(t[e])
            || (t[e] == Clock(Readiness, No) && Save(Running, true) !in t[..e])
            || t[e] == Polled(Yes)
            || (t[e] == Checked(StopNamed, Yes) && Save(Running, true) in t[..e])
  {
    hide Known, Safe;
    PrefixSafe(t, e);
    EndingMeansReason(t[..e]);
    ServingIff(t[..e]);
  }

  /** What an answer means. */
  lemma Answered(k: Facts, about: Topic, answer: Answer)
    requires MayAsk(k, about) && !k.ending && !k.refused
    ensures Justified(k, Checked(about, answer))
    ensures var k' := After(k, Checked(about, answer));
            && k'.stage == k.stage && k'.seen == k.seen + {Checked(about, answer)} && k'.last == Checked(about, answer)
            && k'.refused == (answer == Fault || (MustBeYes(about) && answer == No))
            && k'.ending == (k'.refused || (about == StopNamed && answer == Yes))
  {
    hide MayAsk;
  }

  // ---- The supervisor ------------------------------------------------------

  /** What the Popen object knows. */
  datatype Child = NoChild | Alive | Exited

  class Supervisor {
    var replies: seq<Reply>
    var trace: seq<Event>
    var child: Child
    var started: bool
    var status: Status
    ghost var known: Facts

    /** The log is safe, and `known` sums it up. */
    ghost predicate Logged()
      reads this`trace, this`known
    {
      Safe(trace) && known == Known(trace)
    }

    ghost predicate Valid()
      reads this`trace, this`known, this`child, this`started
    {
      && Logged()
      && (child == NoChild <==> Spawned(true) !in known.seen)
      && (child == Exited <==> ExitSeen(known))
      && (started <==> StartSent(true) in known.seen)
      && (known.refused || ExitSeen(known) ==> known.ending)
    }

    constructor (replies: seq<Reply>)
      ensures Valid()
      ensures this.replies == replies && trace == [] && child == NoChild && !started && status == Starting
    {
      this.replies, trace, child, started, status, known := replies, [], NoChild, false, Starting, NOTHING;
    }

    /** The next reply of the world, if the run is observed that far. */
    method Hear() returns (r: Option<Reply>)
      modifies this`replies
      ensures old(replies) == [] ==> r.None? && replies == []
      ensures old(replies) != [] ==> r == Some(old(replies)[0]) && replies == old(replies)[1..]
    {
      if replies == [] {
        return None;
      }
      r := Some(replies[0]);
      replies := replies[1..];
    }

    method Log(e: Event)
      requires Logged() && Justified(known, e)
      modifies this`trace, this`known
      ensures Logged() && known == After(old(known), e) && trace == old(trace) + [e]
    {
      Append(trace, e);
      trace := trace + [e];
      known := After(known, e);
    }

    /** One call, logged with its result. */
    method Call(done: Event, failed: Event) returns (f: Flow)
      requires Logged()
      requires Justified(known, done) && Justified(known, failed)
      modifies this`replies, this`trace, this`known
      ensures Logged()
      ensures f == Cut ==> replies == [] && known == old(known)
      ensures f == Go ==> known == After(old(known), done)
      ensures f == Raise ==> known == After(old(known), failed)
      ensures f != Cut ==> |replies| < |old(replies)|
    {
      hide Logged, Justified, After;
      var r := Hear();
      if r.None? {
        return Cut;
      }
      Log(if r.value.Raises? then failed else done);
      return if r.value.Raises? then Raise else Go;
    }

    // ---- Single calls ------------------------------------------------------

    /** active(): how many processes are in the Job. */
    method QueryActive() returns (f: Flow, count: nat)
      requires Valid()
      modifies this`replies, this`trace, this`known
      ensures Valid()
      ensures f == Cut ==> replies == [] && known == old(known)
      ensures f == Go ==> known == After(old(known), Active(Count(count)))
      ensures f == Raise ==> known == After(old(known), Active(Uncounted))
      ensures f != Cut ==> |replies| < |old(replies)|
    {
      hide Logged;
      count := if replies != [] && replies[0].Answers? then replies[0].n else 0;
      f := Call(Active(Count(count)), Active(Uncounted));
    }

    /** A question with a yes or no answer. */
    method Ask(about: Topic) returns (f: Flow, yes: bool)
      requires Valid() && MayAsk(known, about) && !known.ending
      modifies this`replies, this`trace, this`known
      ensures Valid()
      ensures f == Cut ==> replies == [] && known == old(known)
      ensures f == Go ==> known == After(old(known), Checked(about, Said(yes)))
      ensures f == Raise ==> known == After(old(known), Checked(about, Fault))
      ensures old(known).seen <= known.seen && known.stage == old(known).stage
      ensures f == Go ==> known.last == Checked(about, Said(yes)) && known.refused == (MustBeYes(about) && !yes)
      ensures f == Go ==> known.ending == (known.refused || (about == StopNamed && yes))
      ensures f == Raise ==> known.refused && known.ending
      ensures f != Cut ==> |replies| < |old(replies)|
    {
      hide Logged, MayAsk, Justified, After, MustBeYes;
      yes := replies != [] && replies[0] == Answers(1);
      Answered(known, about, Said(yes));
      Answered(known, about, Fault);
      f := Call(Checked(about, Said(yes)), Checked(about, Fault));
    }

    /** The deadline of a loop. */
    method SetDeadline(phase: Phase) returns (f: Flow)
      requires Valid() && Justified(known, DeadlineSet(phase, true))
      modifies this`replies, this`trace, this`known
      ensures Valid()
      ensures f == Cut ==> replies == [] && known == old(known)
      ensures f == Go ==> known == After(old(known), DeadlineSet(phase, true))
      ensures f == Raise ==> known == After(old(known), DeadlineSet(phase, false))
      ensures f != Cut ==> |replies| < |old(replies)|
    {
      hide Logged;
      f := Call(DeadlineSet(phase, true), DeadlineSet(phase, false));
    }

    /** time.monotonic() < deadline */
    method BeforeDeadline(phase: Phase) returns (f: Flow, within: bool)
      requires Valid() && Justified(known, Clock(phase, Yes))
      modifies this`replies, this`trace, this`known
      ensures Valid()
      ensures f == Cut ==> replies == [] && known == old(known)
      ensures f == Go ==> known == After(old(known), Clock(phase, Said(within)))
      ensures f == Raise ==> known == After(old(known), Clock(phase, Fault))
      ensures f != Cut ==> |replies| < |old(replies)|
    {
      hide Logged;
      within := replies != [] && replies[0] == Answers(1);
      f := Call(Clock(phase, Said(within)), Clock(phase, Fault));
    }

    method Sleep() returns (f: Flow)
      requires Valid()
      modifies this`replies, this`trace, this`known
      ensures Valid()
      ensures f == Cut ==> replies == [] && known == old(known)
      ensures f == Go ==> known == After(old(known), Slept(true))
      ensures f == Raise ==> known == After(old(known), Slept(false))
      ensures old(known).seen <= known.seen && known.stage == old(known).stage
      ensures f == Go ==> known.last == Slept(true) && known.ending == old(known).ending
      ensures f == Raise ==> known.last == Slept(false) && known.refused && known.ending
      ensures f != Cut ==> |replies| < |old(replies)|
    {
      hide Logged;
      f := Call(Slept(true), Slept(false));
    }

    /** child.poll() is not None: a known exit is remembered and needs no call. */
    method Poll() returns (f: Flow, exited: bool)
      requires Valid() && child != NoChild && Rested(known)
      modifies this`replies, this`trace, this`known, this`child
      ensures Valid()
      ensures f == Cut ==> replies == [] && known == old(known)
      ensures f == Go ==> exited == (child == Exited)
      ensures f == Go ==> known == if old(child) == Exited then old(known) else After(old(known), Polled(Said(exited)))
      ensures f == Raise ==> old(child) == Alive && known == After(old(known), Polled(Fault))
      ensures child != NoChild && (f != Go ==> child == old(child)) && (old(child) == Exited ==> child == Exited)
      ensures |replies| <= |old(replies)|
      ensures f == Go && !exited ==> |replies| < |old(replies)|
    {
      hide Logged;
      if child == Exited {
        return Go, true;
      }
      exited := replies != [] && replies[0] == Answers(1);
      f := Call(Polled(Said(exited)), Polled(Fault));
      if f == Go && exited {
        child := Exited;
      }
    }

    /** child.wait(timeout=5) */
    method Wait() returns (f: Flow)
      requires Valid() && child == Alive && known.ending
      modifies this`replies, this`trace, this`known, this`child
      ensures Valid()
      ensures f == Cut ==> replies == [] && known == old(known)
      ensures f == Go ==> known == After(old(known), Waited(true))
      ensures f == Raise ==> known == After(old(known), Waited(false))
      ensures child == if f == Go then Exited else Alive
      ensures f != Cut ==> |replies| < |old(replies)|
    {
      hide Logged;
      f := Call(Waited(true), Waited(false));
      if f == Go {
        child := Exited;
      }
    }

    /** child.terminate() */
    method Kill() returns (f: Flow)
      requires Valid() && child != NoChild && !started && known.ending
      modifies this`replies, this`trace, this`known
      ensures Valid()
      ensures f == Cut ==> replies == [] && known == old(known)
      ensures f == Go ==> known == After(old(known), Killed(true))
      ensures f == Raise ==> known == After(old(known), Killed(false))
      ensures f != Cut ==> |replies| < |old(replies)|
    {
      hide Logged;
      f := Call(Killed(true), Killed(false));
    }

    /** TerminateJobObject */
    method TerminateJob() returns (f: Flow)
      requires Valid() && known.active != Count(0) && known.ending
      modifies this`replies, this`trace, this`known
      ensures Valid()
      ensures f == Cut ==> replies == [] && known == old(known)
      ensures f == Go ==> known == After(old(known), JobTerminated(true))
      ensures f == Raise ==> known == After(old(known), JobTerminated(false))
      ensures f != Cut ==> |replies| < |old(replies)|
    {
      hide Logged;
      f := Call(JobTerminated(true), JobTerminated(false));
    }

    /** Popen */
    method Spawn() returns (f: Flow)
      requires Valid() && child == NoChild && Justified(known, Spawned(true))
      modifies this`replies, this`trace, this`known, this`child
      ensures Valid()
      ensures f == Cut ==> replies == [] && known == old(known)
      ensures f == Go ==> known == After(old(known), Spawned(true))
      ensures f == Raise ==> known == After(old(known), Spawned(false))
      ensures child == if f == Go then Alive else NoChild
      ensures f != Cut ==> |replies| < |old(replies)|
    {
      hide Logged;
      f := Call(Spawned(true), Spawned(false));
      if f == Go {
        child := Alive;
      }
    }

    /** AssignProcessToJobObject */
    method JoinJob() returns (f: Flow)
      requires Valid() && known.last == Spawned(true) && !known.ending
      modifies this`replies, this`trace, this`known
      ensures Valid()
      ensures f == Cut ==> replies == [] && known == old(known)
      ensures f == Go ==> known == After(old(known), Enrolled(true))
      ensures f == Raise ==> known == After(old(known), Enrolled(false))
      ensures f != Cut ==> |replies| < |old(replies)|
    {
      hide Logged;
      f := Call(Enrolled(true), Enrolled(false));
    }

    /** START is written to the child. */
    method TellStart() returns (f: Flow)
      requires Valid() && !started && Justified(known, StartSent(true))
      modifies this`replies, this`trace, this`known, this`started
      ensures Valid()
      ensures f == Cut ==> replies == [] && known == old(known)
      ensures f == Go ==> known == After(old(known), StartSent(true))
      ensures f == Raise ==> known == After(old(known), StartSent(false))
      ensures started == (f == Go)
      ensures f != Cut ==> |replies| < |old(replies)|
    {
      hide Logged;
      f := Call(StartSent(true), StartSent(false));
      if f == Go {
        started := true;
      }
    }

    /** save(run/'owner.json', r) */
    method SaveOwner() returns (f: Flow)
      requires Valid() && Justified(known, Save(status, true))
      modifies this`replies, this`trace, this`known
      ensures Valid()
      ensures f == Cut ==> replies == [] && known == old(known)
      ensures f == Go ==> known == After(old(known), Save(status, true))
      ensures f == Raise ==> known == After(old(known), Save(status, false))
      ensures f != Cut ==> |replies| < |old(replies)|
    {
      hide Logged;
      f := Call(Save(status, true), Save(status, false));
    }

    /** The inputs are pinned and the run directory made. */
    method PinInputs() returns (f: Flow)
      requires Valid() && known.last == Begun
      modifies this`replies, this`trace, this`known
      ensures Valid()
      ensures f == Cut ==> replies == [] && known == old(known)
      ensures f == Go ==> known == After(old(known), Prepared(true))
      ensures f == Raise ==> known == After(old(known), Prepared(false))
      ensures f != Cut ==> |replies| < |old(replies)|
    {
      hide Logged;
      f := Call(Prepared(true), Prepared(false));
    }

    /** The locator is replaced. */
    method Publish() returns (f: Flow)
      requires Valid() && known.last == Save(Starting, true) && !known.ending
      modifies this`replies, this`trace, this`known
      ensures Valid()
      ensures f == Cut ==> replies == [] && known == old(known)
      ensures f == Go ==> known == After(old(known), Published(true))
      ensures f == Raise ==> known == After(old(known), Published(false))
      ensures f != Cut ==> |replies| < |old(replies)|
    {
      hide Logged;
      f := Call(Published(true), Published(false));
    }

    /** job_api */
    method Configure() returns (f: Flow)
      requires Valid() && known.stage == Fresh && known.last == Published(true) && !known.ending
      modifies this`replies, this`trace, this`known
      ensures Valid()
      ensures f == Cut ==> replies == [] && known == old(known)
      ensures f == Go ==> known == After(old(known), JobConfigured(true))
      ensures f == Raise ==> known == After(old(known), JobConfigured(false))
      ensures f != Cut ==> |replies| < |old(replies)|
    {
      hide Logged;
      f := Call(JobConfigured(true), JobConfigured(false));
    }

    /** CloseHandle */
    method CloseHandle() returns (f: Flow)
      requires Valid() && known.ending && Quiet(known) && known.retiredOnDisk
      requires known.stage == Emptying || known.stage == Doubted
      modifies this`replies, this`trace, this`known
      ensures Valid()
      ensures f == Cut ==> replies == [] && known == old(known)
      ensures f == Go ==> known == After(old(known), HandleClosed(true))
      ensures f == Raise ==> known == After(old(known), HandleClosed(false))
      ensures f != Cut ==> |replies| < |old(replies)|
    {
      hide Logged;
      f := Call(HandleClosed(true), HandleClosed(false));
    }

    // ---- Up ----------------------------------------------------------------

    /** A step on the way up: it goes on only without a reason to end, and raises only with one. */
    twostate predicate Upwards(f: Flow)
      reads this
    {
      && old(known).seen <= known.seen
      && (f == Cut ==> replies == [])
      && (f == Go ==> !known.ending)
      && (f == Raise ==> known.ending)
    }

    /** Everything before the Job exists: the pinned inputs, owner.json, the locator. */
    method Prepare() returns (f: Flow)
      requires Valid() && known == NOTHING && status == Starting
      modifies this`replies, this`trace, this`known
      ensures Valid()
      ensures Upwards(f) && known.stage == Fresh
      ensures f == Go ==> Published(true) in known.seen && known.last == Published(true)
      ensures f == Raise ==> known.refused
    {
      hide Logged;
      f := PinInputs();
      if f != Go { return; }
      f := SaveOwner();
      if f != Go { return; }
      f := Publish();
    }

    /** job_api, with the record of a failure. */
    method ConfigureJob() returns (f: Flow)
      requires Valid() && !known.ending && known.last == Published(true) && known.stage == Fresh
      modifies this`replies, this`trace, this`known, this`status
      ensures Valid()
      ensures Upwards(f)
      ensures known.stage == if f == Go then JobThere else Fresh
      ensures f == Go ==> known.last == JobConfigured(true)
      ensures f == Raise ==> known.refused
    {
      hide Logged;
      f := Configure();
      if f == Raise {
        status := PreJobFailed;
        f := SaveOwner();
        if f == Go { f := Raise; }
      }
    }

    /** The port binds and the log opens. */
    method OpenPortAndLog() returns (f: Flow)
      requires Valid() && known.last == JobConfigured(true) && !known.ending
      modifies this`replies, this`trace, this`known
      ensures Valid()
      ensures Upwards(f) && known.stage == old(known).stage
      ensures f == Go ==> known.last == Checked(LogOpens, Yes)
      ensures f == Raise ==> known.refused
    {
      hide Logged, Justified, After;
      var yes;
      f, yes := Ask(PortFree);
      if f != Go { return; }
      if !yes { return Raise; }
      f, yes := Ask(LogOpens);
      if f == Go && !yes { f := Raise; }
    }

    /** The child joins the Job, or is stopped and awaited. */
    method Assign() returns (f: Flow)
      requires Valid() && child == Alive && known.last == Spawned(true) && !known.ending && !started
      modifies this`replies, this`trace, this`known, this`child
      ensures Valid() && child != NoChild
      ensures Upwards(f) && known.stage == old(known).stage
      ensures f == Go ==> Enrolled(true) in known.seen && child == Alive
      ensures f == Raise ==> known.refused
    {
      hide Logged;
      f := JoinJob();
      if f != Raise { return; }
      f := Kill();
      if f != Go { return; }
      f := Wait();
      if f == Go { f := Raise; }
    }

    /** One membership query, then START. */
    method SendStart() returns (f: Flow)
      requires Valid() && child == Alive && !known.ending && !started
      requires Published(true) in known.seen && Enrolled(true) in known.seen
      modifies this`replies, this`trace, this`known, this`started
      ensures Valid()
      ensures Upwards(f) && known.stage == old(known).stage
      ensures f == Go ==> started && known.last == StartSent(true)
      ensures f == Raise ==> known.refused
    {
      hide Logged;
      var count;
      f, count := QueryActive();
      if f != Go { return; }
      f := TellStart();
    }

    /** Enrolment: the child exists, is in the Job, and only then hears START. */
    method Enrol() returns (f: Flow)
      requires Valid() && child == NoChild && !started && known.stage == JobThere
      requires Published(true) in known.seen && known.last == JobConfigured(true) && !known.ending
      modifies this`replies, this`trace, this`known, this`child, this`started
      ensures Valid()
      ensures Upwards(f) && known.stage == JobThere
      ensures f == Go ==> child == Alive && started && known.last == StartSent(true)
      ensures f == Raise ==> known.refused
    {
      hide Logged;
      f := OpenPortAndLog();
      if f != Go { return; }
      f := Spawn();
      if f != Go { return; }
      f := Assign();
      if f != Go { return; }
      f := SendStart();
    }

    /** One look for the ready file: it is there and names a process of the Job. */
    method LookForReady() returns (f: Flow, declared: bool)
      requires Valid() && !known.ending && known.last == Clock(Readiness, Yes)
      modifies this`replies, this`trace, this`known
      ensures Valid()
      ensures Upwards(f) && known.stage == old(known).stage
      ensures f == Go ==> known.last == if declared then Checked(ReadyNamed, Yes) else Slept(true)
      ensures f == Go ==> |replies| < |old(replies)|
    {
      hide Logged, Justified, After;
      f, declared := Ask(ReadyThere);
      if f != Go { return; }
      if declared {
        f, declared := Ask(ReadyNamed);
        if f != Go || declared { return; }
      }
      f := Sleep();
    }

    /** child.poll() is None and time.monotonic() < deadline */
    method StillStarting() returns (f: Flow)
      requires Valid() && child == Alive && !known.ending && Rested(known) && known.stage == JobThere
      modifies this`replies, this`trace, this`known, this`child
      ensures Valid() && child != NoChild
      ensures Upwards(f) && known.stage == JobThere
      ensures f == Go ==> child == Alive && known.last == Clock(Readiness, Yes)
      ensures f == Go ==> |replies| < |old(replies)|
    {
      hide Logged, Rested;
      var exited, within;
      f, exited := Poll();
      if f != Go { return; }
      if exited { return Raise; }
      f, within := BeforeDeadline(Readiness);
      if f == Go && !within { f := Raise; }
    }

    /** Until the service declares itself from inside the Job, 90 seconds at most. */
    method AwaitReady() returns (f: Flow)
      requires Valid() && child == Alive && !known.ending && known.last == StartSent(true) && known.stage == JobThere
      modifies this`replies, this`trace, this`known, this`child
      ensures Valid() && child != NoChild
      ensures Upwards(f) && known.stage == JobThere
      ensures f == Go ==> child == Alive && known.last == Checked(ReadyNamed, Yes)
    {
      hide Logged;
      f := SetDeadline(Readiness);
      if f != Go { return; }
      hide After;
      while true
        invariant Valid() && child == Alive && !known.ending && Rested(known) && known.stage == JobThere
        invariant old(known).seen <= known.seen
        decreases |replies|
      {
        f := StillStarting();
        if f != Go { return; }
        var declared;
        f, declared := LookForReady();
        if f != Go || declared { return; }
      }
    }

    /** Identity and required checks, and the RUNNING record. */
    method Review() returns (f: Flow)
      requires Valid() && started && !known.ending && known.last == Checked(ReadyNamed, Yes) && known.stage == JobThere
      modifies this`replies, this`trace, this`known, this`status
      ensures Valid()
      ensures Upwards(f)
      ensures known.stage == if f == Go then Serving else JobThere
      ensures f == Go ==> known.last == Save(Running, true)
    {
      hide Logged;
      var passed, count;
      f, passed := Ask(ChecksPass);
      if f != Go { return; }
      if !passed { return Raise; }
      f, count := QueryActive();
      if f != Go { return; }
      status := Running;
      f := SaveOwner();
    }

    /** One look for a STOP request that names this run; one that does not is refused. */
    method LookForStop() returns (f: Flow, stop: bool)
      requires Valid() && !known.ending && known.stage == Serving && known.last == Polled(No)
      modifies this`replies, this`trace, this`known
      ensures Valid()
      ensures old(known).seen <= known.seen && known.stage == Serving
      ensures f == Cut ==> replies == []
      ensures f == Raise ==> known.ending
      ensures f == Go ==> (known.ending <==> stop) && (!stop ==> Rested(known))
      ensures f == Go ==> |replies| < |old(replies)|
    {
      hide Logged, Justified, After;
      f, stop := Ask(StopThere);
      if f != Go { return; }
      if stop {
        f, stop := Ask(StopNamed);
        if f == Go && !stop { f := Raise; }
        return;
      }
      f := Sleep();
    }

    /** Until the child exits or a STOP request names this run. */
    method Watch() returns (f: Flow)
      requires Valid() && child == Alive && !known.ending && known.stage == Serving && Rested(known)
      modifies this`replies, this`trace, this`known, this`child
      ensures Valid()
      ensures old(known).seen <= known.seen && known.stage == Serving
      ensures f == Cut ==> replies == []
      ensures f != Cut ==> known.ending
    {
      hide Logged, Rested;
      while true
        invariant Valid() && child == Alive && !known.ending && known.stage == Serving && Rested(known)
        invariant old(known).seen <= known.seen
        decreases |replies|
      {
        var exited, stop;
        f, exited := Poll();
        if f != Go || exited { return; }
        f, stop := LookForStop();
        if f != Go || stop { return; }
      }
    }

    /** The guarded part: enrolment, readiness, review, watch. */
    method Serve() returns (f: Flow)
      requires Valid() && child == NoChild && !started && known.stage == JobThere
      requires Published(true) in known.seen && known.last == JobConfigured(true) && !known.ending
      modifies this
      ensures Valid()
      ensures known.stage == JobThere || known.stage == Serving
      ensures f == Cut ==> replies == []
      ensures f != Cut ==> known.ending && (StartSent(true) in known.seen || known.refused)
    {
      hide Logged, After, Justified;
      f := Enrol();
      if f != Go { return; }
      f := AwaitReady();
      if f != Go { return; }
      f := Review();
      if f != Go { return; }
      f := Watch();
    }

    // ---- Down --------------------------------------------------------------

    /** A step on the way down: nothing seen, no reason and no refusal is forgotten. */
    static predicate Downwards(before: Facts, after: Facts) {
      before.seen <= after.seen && after.ending && (before.refused ==> after.refused)
    }

    /** What can end a retirement other than the close: these calls are not guarded. */
    static predicate Unguarded(k: Facts) {
      && k.refused
      && (|| k.last == Polled(Fault) || k.last == DeadlineSet(Cleanup, false) || k.last == Clock(Cleanup, Fault)
          || k.last == Slept(false) || k.last == HandleClosed(false))
    }

    /** Ends the Job if it is not seen empty. */
    method EndJob() returns (f: Flow)
      requires Valid() && known.ending
      modifies this`replies, this`trace, this`known
      ensures Valid()
      ensures Downwards(old(known), known) && known.stage == old(known).stage
      ensures f == Cut ==> replies == []
      ensures f != Cut ==> Rested(known) && (known.active == Count(0) || Terminated(known))
    {
      hide Logged;
      var count;
      f, count := QueryActive();
      if f == Cut { return; }
      if f == Raise || count != 0 {
        f := TerminateJob();
      }
    }

    method AwaitChild() returns (f: Flow)
      requires Valid() && child == Alive && known.ending
      modifies this`replies, this`trace, this`known, this`child
      ensures Valid() && child != NoChild
      ensures Downwards(old(known), known) && known.stage == old(known).stage && known.active == old(known).active
      ensures f == Cut ==> replies == []
      ensures f != Cut ==> Awaited(known)
    {
      hide Logged;
      if !started {
        f := Kill();
        if f != Go { return; }
      }
      f := Wait();
    }

    /** Ends the Job if it is not seen empty, and waits for a child still alive. */
    method StopAll() returns (f: Flow)
      requires Valid() && known.ending
      modifies this`replies, this`trace, this`known, this`child
      ensures Valid()
      ensures Downwards(old(known), known) && known.stage == old(known).stage
      ensures f == Cut ==> replies == []
      ensures f == Raise ==> Unguarded(known)
      ensures f == Go ==> Stopped(known)
    {
      hide Logged, Rested, Justified;
      f := EndJob();
      if f == Cut { return; }
      if child == NoChild { return Go; }
      var exited;
      f, exited := Poll();
      if f != Go || exited { return; }
      f := AwaitChild();
      if f == Raise { f := Go; }
    }

    /** attempt('active_after', active): a failed query leaves nothing known. */
    method TryActive() returns (f: Flow, remaining: Count)
      requires Valid() && known.ending
      modifies this`replies, this`trace, this`known
      ensures Valid()
      ensures Downwards(old(known), known) && known.stage == old(known).stage
      ensures f != Raise && (f == Cut ==> replies == [])
      ensures f == Go ==> known.active == remaining && Rested(known)
      ensures f != Cut ==> |replies| < |old(replies)|
    {
      hide Logged;
      var count;
      f, count := QueryActive();
      remaining := if f == Go then Count(count) else Uncounted;
      if f == Raise { f := Go; }
    }

    /** The loop condition on the clock, and the short sleep. */
    method Pause() returns (f: Flow, within: bool)
      requires Valid() && known.ending && known.stage == Emptying
      modifies this`replies, this`trace, this`known
      ensures Valid()
      ensures Downwards(old(known), known) && known.stage == Emptying
      ensures f == Go ==> known.active == old(known).active && Rested(known)
      ensures f == Go && !within ==> Clock(Cleanup, No) in known.seen
      ensures f == Cut ==> replies == []
      ensures f == Raise ==> Unguarded(known)
      ensures f != Cut ==> |replies| < |old(replies)|
    {
      hide Logged;
      f, within := BeforeDeadline(Cleanup);
      if f != Go || !within { return; }
      f := Sleep();
    }

    /** The last membership count, asked for 5 seconds at most while it is not zero. */
    method AwaitEmpty() returns (f: Flow, remaining: Count)
      requires Valid() && known.ending && Stopped(known)
      modifies this`replies, this`trace, this`known
      ensures Valid()
      ensures Downwards(old(known), known) && (known.stage == Emptying || known.stage == old(known).stage)
      ensures f == Cut ==> replies == []
      ensures f == Go ==> known.stage == Emptying && known.active == remaining && Rested(known)
      ensures f == Go ==> remaining.Uncounted? || remaining == Count(0) || Clock(Cleanup, No) in known.seen
      ensures f == Raise ==> Unguarded(known)
    {
      hide Logged, Stopped;
      remaining := Uncounted;
      f := SetDeadline(Cleanup);
      if f != Go { return; }
      f, remaining := TryActive();
      if f == Cut { return; }
      hide Rested, After, Justified;
      while remaining.Count? && remaining.n != 0
        invariant Valid() && Rested(known) && known.stage == Emptying
        invariant Downwards(old(known), known)
        invariant known.active == remaining
        decreases |replies|
      {
        var within;
        f, within := Pause();
        if f != Go { return; }
        if !within { break; }
        f, remaining := TryActive();
        if f == Cut { return; }
      }
      f := Go;
    }

    /** Whether the child is known to be gone, and its exit code for the record. */
    method ExitKnown() returns (f: Flow, exited: bool)
      requires Valid() && Rested(known) && known.ending
      modifies this`replies, this`trace, this`known, this`child
      ensures Valid()
      ensures Downwards(old(known), known) && known.stage == old(known).stage && known.active == old(known).active
      ensures f == Cut ==> replies == []
      ensures f == Go ==> (exited ==> child != Alive)
      ensures f == Go && !exited ==> child == Alive || known.last == Polled(Yes)
      ensures f == Raise ==> Unguarded(known)
    {
      hide Logged, Justified;
      if child == NoChild { return Go, true; }
      f, exited := Poll();
      if f != Go { return; }
      var code;
      f, code := Poll();
    }

    /** active()==0 and (child is None or child.poll() is not None) */
    method SeesQuiet() returns (f: Flow, quiet: bool)
      requires Valid() && known.ending
      modifies this`replies, this`trace, this`known, this`child
      ensures Valid()
      ensures Downwards(old(known), known) && known.stage == old(known).stage
      ensures f == Cut ==> replies == []
      ensures f == Go && quiet ==> Quiet(known)
      ensures f != Cut ==> |replies| < |old(replies)|
    {
      hide Logged, Justified;
      var count;
      quiet := false;
      f, count := QueryActive();
      if f != Go || count != 0 { return; }
      quiet := child == NoChild;
      if !quiet {
        f, quiet := Poll();
      }
    }

    method SaveAfterUnknown() returns (f: Flow)
      requires Valid() && known.ending && known.stage == Doubted && Quiet(known)
      modifies this`replies, this`trace, this`known, this`status
      ensures Valid()
      ensures Downwards(old(known), known) && known.stage == Doubted
      ensures f == Cut ==> replies == []
      ensures f == Go ==> Quiet(known) && known.retiredOnDisk && IsRetired(status)
      ensures |replies| <= |old(replies)|
    {
      hide Logged;
      status := RetiredAfterUnknown;
      f := SaveOwner();
    }

    /** A sleep; one that is interrupted, or that follows an error, is slept once more, unguarded. */
    method Doze(before: Flow) returns (f: Flow)
      requires Valid() && before != Cut && known.ending
      modifies this`replies, this`trace, this`known
      ensures Valid()
      ensures Downwards(old(known), known) && known.stage == old(known).stage
      ensures f == Cut ==> replies == []
      ensures f == Raise ==> known.refused && known.last == Slept(false)
      ensures f != Cut ==> |replies| < |old(replies)|
    {
      hide Logged, Justified;
      f := before;
      if f == Go {
        f := Sleep();
        if f != Raise { return; }
      }
      f := Sleep();
    }

    /** One round of the endless wait: record a retirement that is true, or sleep. */
    method TryRetire() returns (f: Flow, done: bool)
      requires Valid() && known.ending && known.stage == Doubted
      modifies this`replies, this`trace, this`known, this`child, this`status
      ensures Valid()
      ensures Downwards(old(known), known) && known.stage == Doubted
      ensures f == Cut ==> replies == []
      ensures f == Go && done ==> Quiet(known) && known.retiredOnDisk && IsRetired(status)
      ensures f == Raise ==> known.refused && known.last == Slept(false)
      ensures f != Cut && !done ==> |replies| < |old(replies)|
    {
      hide Logged, Justified, After, Quiet;
      var quiet;
      done := false;
      f, quiet := SeesQuiet();
      if f == Cut { return; }
      if f == Go && quiet {
        f := SaveAfterUnknown();
        if f == Cut { return; }
        if f == Go { return Go, true; }
      }
      f := Doze(f);
    }

    /** The first record; Raise stands for one that does not end the retirement. */
    method RecordFirst(gone: bool) returns (f: Flow)
      requires Valid() && known.ending && known.stage == Emptying
      requires if gone then Quiet(known) else Doubtful(known)
      modifies this`replies, this`trace, this`known, this`status
      ensures Valid()
      ensures Downwards(old(known), known) && (known.stage == Emptying || known.stage == Doubted)
      ensures f == Cut ==> replies == []
      ensures f == Go ==> Quiet(known) && known.retiredOnDisk && IsRetired(status)
      ensures f == Raise ==> Doubtful(known)
    {
      hide Logged;
      status := if gone then Retired else RetirementUnknown;
      f := SaveOwner();
      if f == Go && !gone { f := Raise; }
    }

    /** The retirement record, and the endless wait that replaces it when the first
        record would not have been true or could not be saved. */
    method Record(remaining: Count, exited: bool) returns (f: Flow)
      requires Valid() && known.ending && known.stage == Emptying
      requires exited ==> child != Alive
      requires known.active == remaining
      requires !(remaining == Count(0) && exited) ==> Doubtful(known)
      modifies this`replies, this`trace, this`known, this`child, this`status
      ensures Valid()
      ensures Downwards(old(known), known) && (known.stage == Emptying || known.stage == Doubted)
      ensures f == Cut ==> replies == []
      ensures f == Go ==> Quiet(known) && known.retiredOnDisk && IsRetired(status)
      ensures f == Raise ==> known.refused && known.last == Slept(false)
    {
      hide Logged, Doubtful;
      f := RecordFirst(remaining == Count(0) && exited);
      if f != Raise { return; }
      status := RetirementUnknown;
      f := SaveOwner();
      if f == Cut { return; }
      hide Quiet, After, Justified;
      while true
        invariant Valid() && known.stage == Doubted
        invariant Downwards(old(known), known)
        decreases |replies|
      {
        var done;
        f, done := TryRetire();
        if f != Go || done { return; }
      }
    }

    /** The finally block. */
    method Retire() returns (f: Flow)
      requires Valid() && known.ending && (known.stage == JobThere || known.stage == Serving)
      modifies this`replies, this`trace, this`known, this`child, this`status
      ensures Valid()
      ensures Downwards(old(known), known) && known.stage != Fresh
      ensures f == Cut ==> replies == []
      ensures f == Go <==> known.stage == Closed
      ensures f == Go ==> known.last == HandleClosed(true) && IsRetired(status)
      ensures f == Raise ==> Unguarded(known)
    {
      hide Logged, Rested, Stopped, Justified, After;
      var remaining, exited;
      f := StopAll();
      if f != Go { return; }
      f, remaining := AwaitEmpty();
      if f != Go { return; }
      f, exited := ExitKnown();
      if f != Go { return; }
      f := Release(remaining, exited);
    }

    /** The record, and then the close of the handle. */
    method Release(remaining: Count, exited: bool) returns (f: Flow)
      requires Valid() && known.ending && known.stage == Emptying
      requires exited ==> child != Alive
      requires known.active == remaining
      requires !(remaining == Count(0) && exited) ==> Doubtful(known)
      modifies this`replies, this`trace, this`known, this`child, this`status
      ensures Valid()
      ensures Downwards(old(known), known) && known.stage != Fresh
      ensures f == Cut ==> replies == []
      ensures f == Go <==> known.stage == Closed
      ensures f == Go ==> known.last == HandleClosed(true) && IsRetired(status)
      ensures f == Raise ==> Unguarded(known)
    {
      hide Logged, Justified, Doubtful, Quiet;
      f := Record(remaining, exited);
      if f != Go { return; }
      f := CloseHandle();
    }

    /** steady_owner.  Every run is safe.  A run in which nothing is refused sends START; one
        that raises was refused something.  Once the Job has been configured, a run that is
        observed to its end closes the handle with a retired record, unless a poll, the
        clock, a sleep or the close itself raises inside the retirement. */
    method Run() returns (f: Flow)
      requires Valid() && trace == [] && status == Starting
      modifies this
      ensures Valid()
      ensures f == Cut ==> replies == []
      ensures f == Go <==> known.stage == Closed
      ensures f == Go ==> known.last == HandleClosed(true) && IsRetired(status)
      ensures f == Go ==> StartSent(true) in known.seen || known.refused
      ensures f == Raise ==> known.refused
      ensures f == Raise && known.stage != Fresh ==> Unguarded(known)
    {
      assert known == NOTHING;
      hide Logged, Justified, After;
      f := Prepare();
      if f != Go { return; }
      f := ConfigureJob();
      if f != Go { return; }
      f := Serve();
      if f == Cut { return; }
      if f == Raise {
        status := StartFailed;
      }
      f := Retire();
    }
  }
}
