/** The client behind a request chain.  Every layer below is given one attempt, so an attempt
    is one send; the log of a chain obeys its rules and is what came back over the wire. */
module ApiClient {
  import opened ApiChain
  import opened HttpRetry
  import opened Text
  import opened Wrappers

  /** rate_limit_retries and rate_limit_backoff_sec */
  datatype Config = Config(retries: int, backoff: seq<real>)

  predicate GoodRetries(c: Config) {
    0 <= c.retries <= MAX_RETRIES
  }

  predicate GoodBackoff(c: Config) {
    c.backoff != [] && forall i :: 0 <= i < |c.backoff| ==> 0.0 <= c.backoff[i] <= MAX_INLINE_WAIT
  }

  /** What saving a token comes to; a failure leaves the old file, or a torn one. */
  datatype Save = Saved | Unsaved(left: Option<Token>)

  /** A call: its rules, its first token, its path, and what had gone over the wire before it. */
  datatype Call = Call(rules: Rules, token: string, path: string, base: seq<Event>)

  datatype Result = BadCall | GuardRaised | RecoveryFailed | Ended(last: Attempt)

  const TRANSPORT_BACKOFF := [1.0, 2.0, 4.0]

  /** The rules of a call; the configuration is read only for a reviewed read without guard. */
  function RulesOf(r: ApiRequest, retryOn401: bool, retryRead: Option<bool>, guarded: bool, c: Config): (rules: Rules)
    requires ReviewedRead(r, retryRead) && !guarded ==> GoodRetries(c)
    ensures 1 <= rules.budget <= 1 + MAX_RETRIES
    ensures !rules.read ==> rules.budget <= 2
  {
    var read := ReviewedRead(r, retryRead);
    Rules(read, if guarded then 1 else if read then 1 + c.retries else if retryOn401 then 2 else 1, retryOn401,
          if read && !guarded then c.backoff else [])
  }

  /** min(delays[min(attempt, len - 1)] + jitter, 60) */
  function Pause(backoff: seq<real>, attempt: nat, jitter: real): (seconds: real)
    requires backoff != [] && (forall i :: 0 <= i < |backoff| ==> 0.0 <= backoff[i] <= MAX_INLINE_WAIT)
    requires 0.0 <= jitter <= 0.5
    ensures 0.0 <= seconds <= MAX_INLINE_WAIT
  {
    var x := Delay(backoff, attempt) + jitter;
    if x < MAX_INLINE_WAIT then x else MAX_INLINE_WAIT
  }

  class Client {
    const wire: Wire<Response>
    const config: Config
    const jitter: nat -> real
    const now: int
    const saving: Save
    var store: Option<Token>
    var log: seq<ApiEvent>

    constructor (wire: Wire<Response>, config: Config, jitter: nat -> real, now: int, saving: Save, store: Option<Token>)
      ensures this.wire == wire && this.config == config && this.jitter == jitter && this.now == now
      ensures this.saving == saving && this.store == store && log == []
    {
      this.wire, this.config, this.jitter, this.now, this.saving := wire, config, jitter, now, saving;
      this.store, log := store, [];
    }

    /** refresh_access_token(force=True): at most one send, by urllib.  The stored token is
        touched exactly when a complete grant came back; a save that fails raises, and leaves
        what it leaves. */
    method RefreshAccessToken() returns (sent: bool, access: Option<string>)
      modifies this`store, wire
      ensures wire.cursor == old(wire.cursor) + if sent then 1 else 0
      ensures wire.log == old(wire.log) + if sent then [Sent(AUTH_TARGET, Urllib)] else []
      ensures sent == old(Refreshable(store, now))
      ensures var grant := if sent then GrantOf(wire.world(old(wire.cursor))) else None;
              && access == (if saving.Saved? then grant else None)
              && (grant.None? ==> store == old(store))
              && (grant.Some? ==> if saving.Unsaved? then store == saving.left
                                  else store.Some? && store.value.access == grant.value)
    {
      if store.None? || store.value.refresh == "" {
        return false, None;
      }
      var token := store.value;
      if token.refreshExpiry.Some? && now >= token.refreshExpiry.value {
        return false, None;
      }
      var r := WireRequest("GET", false, AUTH_TARGET);
      var outcome := wire.Urlopen(r, 1, TRANSPORT_BACKOFF, false);
      SingleShot(wire.world, old(wire.cursor), wire.cursor - old(wire.cursor), r, 1, false, TRANSPORT_BACKOFF);
      sent := true;
      if !outcome.Returned? || !Complete(outcome.value.grant) {
        return sent, None;
      }
      var grant := outcome.value.grant;
      if saving.Unsaved? {
        store := saving.left;
        return sent, None;
      }
      store := Some(Token(grant.access,
                          if grant.refresh.Some? then grant.refresh.value else token.refresh,
                          if grant.refreshExpiry.Some? then grant.refreshExpiry else token.refreshExpiry));
      access := Some(grant.access);
    }

    /** _do_request_once: exactly one send, whatever comes back. */
    method DoRequestOnce(r: ApiRequest) returns (a: Attempt)
      modifies wire
      ensures wire.cursor == old(wire.cursor) + 1
      ensures wire.log == old(wire.log) + [Sent(r.path, Urllib)]
      ensures a == Classify(AsOutcome(wire.world(old(wire.cursor))))
    {
      var request := WireRequest(r.verb, r.hasBody, r.path);
      var outcome := wire.Urlopen(request, 1, TRANSPORT_BACKOFF, false);
      SingleShot(wire.world, old(wire.cursor), wire.cursor - old(wire.cursor), request, 1, false, TRANSPORT_BACKOFF);
      a := Classify(outcome);
    }

    /** What a chain started now will meet. */
    function Ahead(): Setting
      reads this, wire
    {
      Setting(wire.world, wire.cursor, Refreshable(store, now), saving.Saved?)
    }

    /** The log obeys the rules, comes from the wire, and is all that went over it. */
    ghost predicate Logged(s: Setting, c: Call)
      reads this, wire
    {
      && s.world == wire.world
      && Disciplined(c.rules, c.token, log) && FromWire(s, log)
      && wire.cursor == s.from + Used(log)
      && wire.log == c.base + Sends(c.path, log)
    }

    /** Logs what the sends just made came to. */
    method Note(e: ApiEvent, ghost s: Setting, ghost c: Call)
      requires Disciplined(c.rules, c.token, log) && Allowed(c.rules, Known(c.token, log), e)
      requires s.world == wire.world && FromWire(s, log) && Matches(s, Used(log), e)
      requires wire.log == c.base + Sends(c.path, log) + SendsOf(c.path, e)
      requires wire.cursor == s.from + Used(log) + |SendsOf(c.path, e)|
      modifies this`log
      ensures Logged(s, c) && log == old(log) + [e]
      ensures Known(c.token, log) == After(Known(c.token, old(log)), e)
    {
      hide Known, Disciplined, FromWire, Used, Sends, Allowed, Matches, After;
      Append(c.rules, c.token, log, e);
      WireAppend(s, log, e);
      SendsAppend(c.path, log, e);
      log := log + [e];
    }

    /** Where the loop stands before the send of an attempt. */
    ghost predicate Stands(s: Setting, c: Call, attempt: nat, accessToken: string, refreshed: bool)
      reads this, wire
    {
      var k := Known(c.token, log);
      && Logged(s, c)
      && attempt < c.rules.budget && k.attempts == attempt && k.token == accessToken
      && k.refreshes == (if refreshed then 1 else 0)
      && (attempt == 0 || (c.rules.read && k.slept) || k.renewed)
      && s.saves == saving.Saved? && (!refreshed ==> s.refreshable == Refreshable(store, now))
    }

    /** How a chain ends. */
    ghost predicate Ends(s: Setting, c: Call, result: Result)
      reads this, wire
    {
      var k := Known(c.token, log);
      && Logged(s, c) && k.attempts > 0 && Over(c.rules, k)
      && (result.Ended? || result == RecoveryFailed)
      && (result.Ended? ==> Spent(c.rules, k) && result.last == k.last)
      && (result == RecoveryFailed ==> k.tried && k.refreshes == 1 && !k.renewed)
    }

    /** One attempt, logged. */
    method SendOnce(r: ApiRequest, accessToken: string, attempt: nat, ghost s: Setting, ghost c: Call, ghost refreshed: bool)
      returns (a: Attempt)
      requires r.path == c.path && Stands(s, c, attempt, accessToken, refreshed)
      modifies this`log, wire
      ensures Logged(s, c)
      ensures Known(c.token, log) == After(Known(c.token, old(log)), Attempted(accessToken, a))
      ensures !refreshed ==> s.refreshable == Refreshable(store, now)
    {
      hide Known, Disciplined, FromWire, Used, Sends, Classify, After, Refreshable;
      a := DoRequestOnce(r);
      Note(Attempted(accessToken, a), s, c);
    }

    /** One credential refresh of a chain, marked before it is made. */
    method Recover(ghost s: Setting, ghost c: Call) returns (access: Option<string>)
      requires Logged(s, c) && s.refreshable == Refreshable(store, now) && s.saves == saving.Saved?
      requires Allowed(c.rules, Known(c.token, log), Refreshed(true, None))
      modifies this`log, this`store, wire
      ensures Logged(s, c)
      ensures Known(c.token, log) == After(Known(c.token, old(log)), Refreshed(s.refreshable, access))
      ensures access == if s.refreshable && s.saves then GrantOf(wire.world(old(wire.cursor))) else None
    {
      hide Known, Disciplined, FromWire, Used, Sends, After, Complete;
      var sent;
      sent, access := RefreshAccessToken();
      Note(Refreshed(sent, access), s, c);
    }

    /** The wait of a retried read: the backoff index is in range, the sleep honours the wait
        that was asked for, and it is at most a minute. */
    method BackOff(a: Attempt, attempt: nat, ghost s: Setting, ghost c: Call)
      requires Logged(s, c) && c.rules.read
      requires Known(c.token, log).last == a && MayRetry(a) && !Known(c.token, log).slept && !Known(c.token, log).tried
      requires 0 < Known(c.token, log).attempts < c.rules.budget
      requires GoodBackoff(config) && c.rules.backoff == config.backoff && Known(c.token, log).attempts == attempt + 1
      requires 0.0 <= jitter(attempt) <= 0.5
      modifies this`log
      ensures Logged(s, c)
      ensures log != [] && log[|log| - 1].Waited? && log[..|log| - 1] == old(log)
      ensures Known(c.token, log) == After(Known(c.token, old(log)), log[|log| - 1])
    {
      hide Known, Disciplined, FromWire, Used, Sends, After;
      var generated := Pause(config.backoff, attempt, jitter(attempt));
      var seconds := if a.wait.Some? && a.wait.value > generated then a.wait.value else generated;
      Note(Waited(seconds), s, c);
    }

    /** One turn of the loop. */
    method Turn(r: ApiRequest, rules: Rules, attempt: nat, accessToken: string, refreshed: bool, ghost s: Setting, ghost c: Call)
      returns (done: Option<Result>, token: string, renewed: bool)
      requires r.path == c.path && rules == c.rules && Stands(s, c, attempt, accessToken, refreshed)
      requires rules.read && rules.budget > 1 ==> GoodBackoff(config) && rules.backoff == config.backoff
      requires 0.0 <= jitter(attempt) <= 0.5
      modifies this`store, this`log, wire
      ensures done.Some? ==> Ends(s, c, done.value)
      ensures done.None? ==> Stands(s, c, attempt + 1, token, renewed)
    {
      hide Known, Logged, GoodBackoff, Refreshable;
      token, renewed, done := accessToken, refreshed, None;
      var a := SendOnce(r, accessToken, attempt, s, c, refreshed);
      var remaining := attempt + 1 < rules.budget;
      if a.kind == Some(EXPIRED) && rules.mayRefresh && !refreshed && remaining {
        renewed := true;
        var fetched := Recover(s, c);
        if fetched.None? {
          done := Some(RecoveryFailed);
        } else {
          token := fetched.value;
        }
      } else {
        var canRetry := a.kind == Some(RATE_LIMITED) || (a.raised && a.transient);
        if rules.read && remaining && canRetry && (a.wait.None? || a.wait.value <= MAX_INLINE_WAIT) {
          BackOff(a, attempt, s, c);
        } else {
          done := Some(Ended(a));
        }
      }
    }

    /** The loop of request: it ends only when no rule allows it to go on, never by its counter. */
    method Chain(r: ApiRequest, token: string, rules: Rules) returns (result: Result)
      requires log == [] && rules.budget >= 1
      requires rules.read && rules.budget > 1 ==> GoodBackoff(config) && rules.backoff == config.backoff
      requires forall n :: 0.0 <= jitter(n) <= 0.5
      modifies this`store, this`log, wire
      ensures Ends(old(Ahead()), Call(rules, token, r.path, old(wire.log)), result)
    {
      ghost var s, c := Ahead(), Call(rules, token, r.path, wire.log);
      var attempt, accessToken, refreshed := 0, token, false;
      EmptyLog(rules, token, r.path);
      hide Stands, Ends, GoodBackoff;
      assert Stands(s, c, attempt, accessToken, refreshed) by { StandsAtStart(s, c); }
      while attempt < rules.budget
        invariant Stands(s, c, attempt, accessToken, refreshed) && attempt < rules.budget
      {
        var done, next, renewed := Turn(r, rules, attempt, accessToken, refreshed, s, c);
        if done.Some? {
          return done.value;
        }
        StandsInBudget(s, c, attempt + 1, next, renewed);
        attempt, accessToken, refreshed := attempt + 1, next, renewed;
      }
    }

    lemma StandsAtStart(s: Setting, c: Call)
      requires log == [] && s == Ahead() && c.base == wire.log && c.rules.budget >= 1
      ensures Stands(s, c, 0, c.token, false)
    {
      EmptyLog(c.rules, c.token, c.path);
    }

    lemma StandsInBudget(s: Setting, c: Call, attempt: nat, accessToken: string, refreshed: bool)
      requires Stands(s, c, attempt, accessToken, refreshed)
      ensures attempt < c.rules.budget
    {
    }

    /** request.  A write that may recover is exactly what the replies decide.  `guard` is whether
        a caller's guard is given and lets the send pass. */
    method Request(r: ApiRequest, token: string, retryOn401: bool, retryRead: Option<bool>, guard: Option<bool>)
      returns (result: Result)
      requires log == []
      requires forall n :: 0.0 <= jitter(n) <= 0.5
      modifies this`store, this`log, wire
      ensures result == BadCall <==>
                (retryRead == Some(true) && !KnownPostRead(r))
                || (ReviewedRead(r, retryRead) && guard.None?
                    && !(&& 0 <= config.retries <= 10 && config.backoff != []
                         && forall i :: 0 <= i < |config.backoff| ==> 0.0 <= config.backoff[i] <= 60.0))
      ensures result == GuardRaised <==> result != BadCall && guard == Some(false)
      ensures result == BadCall || result == GuardRaised ==> log == [] && wire.log == old(wire.log)
      ensures result != BadCall && result != GuardRaised ==>
                var rules := RulesOf(r, retryOn401, retryRead, guard.Some?, config);
                Ends(old(Ahead()), Call(rules, token, r.path, old(wire.log)), result)
      ensures !ReviewedRead(r, retryRead) && retryOn401 && guard.None? && result != BadCall ==>
                log == WriteLog(old(Ahead()), token) && wire.log == old(wire.log) + Sends(r.path, log)
      ensures ReviewedRead(r, retryRead) && guard.None? && result.Ended? && Known(token, log).attempts <= config.retries ==>
                log != [] && !Inviting(OutcomeAt(old(Ahead()), Used(log[..|log| - 1])))
      ensures guard.Some? ==> |log| <= 1
      ensures !ReadOnly(r) ==> Known(token, log).attempts <= 2 && Known(token, log).total == 0.0
      ensures !ReadOnly(r) && !retryOn401 ==> |log| <= 1
      ensures !retryOn401 ==> Known(token, log).refreshes == 0
    {
      hide ReadOnly, Known, Ends, KnownPostRead, ReviewedRead, WriteLog, Sends, Inviting;
      EmptyLog(WRITE, token, r.path);
      ReviewedIsReadOnly(r, retryRead);
      if retryRead == Some(true) && !KnownPostRead(r) {
        return BadCall;
      }
      if ReviewedRead(r, retryRead) && guard.None? && !(GoodRetries(config) && GoodBackoff(config)) {
        return BadCall;
      }
      if guard == Some(false) {
        return GuardRaised;
      }
      result := Chain(r, token, RulesOf(r, retryOn401, retryRead, guard.Some?, config));
      ghost var rules := RulesOf(r, retryOn401, retryRead, guard.Some?, config);
      EndsSomehow(old(Ahead()), Call(rules, token, r.path, old(wire.log)), result);
    }

    lemma EndsSomehow(s: Setting, c: Call, result: Result)
      requires Ends(s, c, result)
      ensures result.Ended? || result == RecoveryFailed
      ensures c.rules == WRITE ==> log == WriteLog(s, c.token) && wire.log == c.base + Sends(c.path, log)
      ensures c.rules.read && result.Ended? && Known(c.token, log).attempts < c.rules.budget ==>
                log != [] && !Inviting(OutcomeAt(s, Used(log[..|log| - 1])))
      ensures c.rules.budget == 1 ==> |log| <= 1
      ensures !c.rules.mayRefresh && c.rules.budget >= 1 ==> Known(c.token, log).refreshes == 0
      ensures !c.rules.read ==> Known(c.token, log).attempts <= 2 && Known(c.token, log).total == 0.0
    {
      hide Disciplined, FromWire, WriteLog, Known, Over, Spent, Inviting;
      if c.rules.read && result.Ended? && Known(c.token, log).attempts < c.rules.budget {
        ReadGivesUpLast(s, c.rules, c.token, log);
      }
      if c.rules.budget == 1 {
        OneSend(c.rules, c.token, log);
      }
      if !c.rules.mayRefresh && c.rules.budget >= 1 {
        BudgetsCompose(c.rules, c.token, log);
      }
      if !c.rules.read {
        WritesAreNotReplayed(c.rules, c.token, log);
      }
      if c.rules == WRITE {
        WriteIsDecided(s, c.token, log);
      }
    }
  }

  /** A GET or HEAD without a body, or a POST to one of the four searches. */
  predicate ReadOnly(r: ApiRequest) {
    var verb := UpperAll(r.verb);
    || (verb in {"GET", "HEAD"} && !r.hasBody)
    || (verb == "POST" && exists i :: 0 <= i < 4 && r.path == READ_ONLY_POST_PATHS[i])
  }

  lemma ReviewedIsReadOnly(r: ApiRequest, retryRead: Option<bool>)
    ensures ReviewedRead(r, retryRead) <==> ReadOnly(r) && (UpperAll(r.verb) == "POST" ==> retryRead != Some(false))
  {
  }

  lemma EmptyLog(rules: Rules, token: string, path: string)
    ensures Disciplined(rules, token, []) && Known(token, []) == Start(token) && Sends(path, []) == []
  {
  }
}
