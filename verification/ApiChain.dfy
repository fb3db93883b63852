/** One request chain of the shop API, as its log shows it: bounded attempts, at most one
    credential refresh, and a different rule for writes than for reviewed reads; and how the
    log is determined by what came back over the wire. */
module ApiChain {
  import opened Decimal
  import opened Text
  import opened Wrappers
  import opened HttpRetry

  // ---- Classification ------------------------------------------------------

  datatype CodeField = NoCode | IntCode(n: int) | TextCode(s: string) | OtherCode

  /** A response body.  `errorKind` is a top-level "error_kind" of the body itself. */
  datatype Body = NotJson | NotObject | Object(code: CodeField, errorKind: Option<string>)

  /** A Retry-After value: delay seconds, or a date that many seconds from now. */
  datatype Header = NoHeader | Seconds(x: real) | DateFromNow(x: real) | Unusable

  /** The body read as an answer of the authorisation server. */
  datatype Grant = NoGrant | Granted(access: string, expiry: int, refresh: Option<string>, refreshExpiry: Option<int>)

  datatype Response = Response(status: int, body: Body, retryAfter: Header, grant: Grant)

  const MAX_RETRIES := 10
  const MAX_INLINE_WAIT := 60.0
  const EXPIRED := "credentials_expired"
  const RATE_LIMITED := "rate_limited"

  /** The provider's code: a small non-negative integer, or its ASCII decimal text. */
  function ProviderCode(body: Body): (code: Option<nat>)
  {
    match body
    case Object(IntCode(n), _) => if 0 <= n <= 9999999999 then Some(n) else None
    case Object(TextCode(s), _) => if s != "" && AllDigits(s) && |s| <= 10 then Some(NatValue(s)) else None
    case _ => None
  }

  /** A code and its decimal text read alike: as the code below ten thousand million, else as none. */
  lemma CodeReadsAlike(n: nat, kind: Option<string>)
    ensures ProviderCode(Object(IntCode(n), kind)) == ProviderCode(Object(TextCode(NatText(n)), kind))
         == if n < 10000000000 then Some(n) else None
  {
    NatTextLength(n, 10);
    assert Pow10(10) == 100000 * Pow10(5);
    hide NatText, Pow10;
  }

  function Kind(status: int, code: Option<nat>): string {
    if code == Some(105002) && (status == 200 || status == 401) then EXPIRED
    else if code == Some(105005) then "scope_denied"
    else if code == Some(36009043) then "inactive_shop"
    else if code == Some(36009044) then "inactive_seller"
    else if code == Some(36009037) then "sandbox_hourly_limit"
    else if status == 401 then "authentication_unclassified"
    else if status == 429 || code == Some(36009002) then RATE_LIMITED
    else if 300 <= status < 400 then "redirect_blocked"
    else if code.Some? && code.value != 0 then "provider_error"
    else "http_error"
  }

  /** The accepted Retry-After, never negative. */
  function RetryAfter(h: Header): (wait: Option<real>)
    ensures wait.Some? ==> wait.value >= 0.0
  {
    match h
    case Seconds(x) => Some(if x > 0.0 then x else 0.0)
    case DateFromNow(x) => Some(if x > 0.0 then x else 0.0)
    case _ => None
  }

  /** What one attempt comes to: returned or raised, its kind, its wait, and whether the
      transport failure behind it is transient. */
  datatype Attempt = Attempt(raised: bool, kind: Option<string>, wait: Option<real>, transient: bool)

  function Classify(outcome: Outcome<Response>): Attempt {
    match outcome
    case Threw(HttpError(status, _), Some(v)) =>
      Attempt(true, Some(Kind(status, ProviderCode(v.body))), RetryAfter(v.retryAfter), false)
    case Threw(HttpError(_, _), None) => Attempt(true, Some("error_body_unavailable"), None, false)
    case Threw(exc, _) =>
      Attempt(true, Some(if CertificateError(exc) then "certificate_verification_failed" else "transport_outcome_unknown"),
              None, Retryable(exc))
    case Returned(v) =>
      var code := ProviderCode(v.body);
      if code.None? then Attempt(true, Some("invalid_response"), None, false)
      else if code.value != 0 then Attempt(false, Some(Kind(v.status, code)), RetryAfter(v.retryAfter), false)
      else Attempt(false, if v.body.Object? then v.body.errorKind else None, RetryAfter(v.retryAfter), false)
    case BadArguments => Attempt(true, None, None, false)
  }

  predicate Expired(a: Attempt) {
    a.kind == Some(EXPIRED)
  }

  /** The expired-credential rejection, as the provider gives it. */
  predicate RejectedAsExpired(outcome: Outcome<Response>) {
    match outcome
    case Threw(HttpError(status, _), Some(v)) => (status == 200 || status == 401) && ProviderCode(v.body) == Some(105002)
    case Returned(v) => (v.status == 200 || v.status == 401) && ProviderCode(v.body) == Some(105002)
    case _ => false
  }

  /** A success whose own body says error_kind: "credentials_expired". */
  predicate EchoesExpired(outcome: Outcome<Response>) {
    && outcome.Returned?
    && ProviderCode(outcome.value.body) == Some(0)
    && outcome.value.body.Object?
    && outcome.value.body.errorKind == Some(EXPIRED)
  }

  /** An attempt counts as expired exactly when the provider rejected it so, or when a
      successful body carries that word itself. */
  lemma ExpiredIff(outcome: Outcome<Response>)
    ensures Expired(Classify(outcome)) <==> RejectedAsExpired(outcome) || EchoesExpired(outcome)
  {
    KindsDiffer();
  }

  /** An attempt returns exactly when the answer carries a provider code; else it raises. */
  lemma ReturnsIff(outcome: Outcome<Response>)
    ensures !Classify(outcome).raised <==> outcome.Returned? && ProviderCode(outcome.value.body).Some?
  {
  }

  lemma KindsDiffer()
    ensures EXPIRED !in ["scope_denied", "inactive_shop", "inactive_seller", "sandbox_hourly_limit",
                         "authentication_unclassified", RATE_LIMITED, "redirect_blocked", "provider_error",
                         "http_error", "error_body_unavailable", "certificate_verification_failed",
                         "transport_outcome_unknown", "invalid_response"]
  {
    assert |EXPIRED| == 19;
    assert EXPIRED[0] == 'c' && "certificate_verification_failed"[0] == 'c';
    assert EXPIRED[1] == 'r' && "certificate_verification_failed"[1] == 'e';
  }

  // ---- A chain, seen from outside ------------------------------------------

  const READ_ONLY_POST_PATHS := [
    "/product/202309/products/search",
    "/product/202309/global_products/search",
    "/order/202309/orders/search",
    "/promotion/202309/activities/search"]

  datatype ApiRequest = ApiRequest(verb: string, path: string, hasBody: bool)

  predicate KnownPostRead(r: ApiRequest) {
    UpperAll(r.verb) == "POST" && r.path in READ_ONLY_POST_PATHS
  }

  predicate ReviewedRead(r: ApiRequest, retryRead: Option<bool>) {
    || ((UpperAll(r.verb) == "GET" || UpperAll(r.verb) == "HEAD") && !r.hasBody)
    || (KnownPostRead(r) && retryRead != Some(false))
  }

  /** What a chain may do, and the delays between its attempts. */
  datatype Rules = Rules(read: bool, budget: nat, mayRefresh: bool, backoff: seq<real>)

  datatype ApiEvent =
    | Attempted(token: string, attempt: Attempt)
    | Refreshed(sent: bool, grantedToken: Option<string>)
    | Waited(seconds: real)

  /** What a log has established.  `others` counts the attempts that did not end as
      expired; `slept` and `renewed` say what happened since the latest attempt. */
  datatype Facts = Facts(
    token: string, attempts: nat, others: nat, refreshes: nat, refreshSends: nat,
    last: Attempt, slept: bool, renewed: bool, tried: bool, total: real)

  function Start(token: string): Facts {
    Facts(token, 0, 0, 0, 0, Attempt(true, None, None, false), false, false, false, 0.0)
  }

  function After(k: Facts, e: ApiEvent): Facts {
    match e
    case Attempted(_, a) =>
      k.(attempts := k.attempts + 1, others := k.others + if Expired(a) then 0 else 1,
         last := a, slept := false, renewed := false, tried := false)
    case Refreshed(sent, token) =>
      k.(refreshes := k.refreshes + 1, refreshSends := k.refreshSends + if sent then 1 else 0,
         tried := true, renewed := token.Some?, token := if token.Some? then token.value else k.token)
    case Waited(seconds) => k.(slept := true, total := k.total + seconds)
  }

  predicate MayRetry(a: Attempt) {
    (a.kind == Some(RATE_LIMITED) || (a.raised && a.transient)) && (a.wait.None? || a.wait.value <= MAX_INLINE_WAIT)
  }

  /** The configured delay after the n-th attempt, or a minute. */
  function LeastWait(backoff: seq<real>, n: nat): real
    requires backoff != []
  {
    var x := Delay(backoff, n);
    if x < MAX_INLINE_WAIT then x else MAX_INLINE_WAIT
  }

  /** An attempt follows a sleep of a read or a successful refresh, within the budget and
      with the current token; a refresh follows an expired attempt, once; a sleep follows
      a retryable attempt of a read, at least as long as asked and as configured, at most half
      a second longer, and at most a minute. */
  predicate Allowed(rules: Rules, k: Facts, e: ApiEvent) {
    match e
    case Attempted(token, _) =>
      k.attempts < rules.budget && token == k.token && (k.attempts == 0 || (rules.read && k.slept) || k.renewed)
    case Refreshed(sent, token) =>
      && rules.mayRefresh && k.refreshes == 0 && 0 < k.attempts < rules.budget
      && Expired(k.last) && !k.slept && (token.Some? ==> sent)
    case Waited(seconds) =>
      && rules.read && 0 < k.attempts < rules.budget && MayRetry(k.last) && !k.slept && !k.tried
      && rules.backoff != []
      && var least := LeastWait(rules.backoff, k.attempts - 1);
      && least <= seconds && (seconds <= least + 0.5 || k.last.wait == Some(seconds))
      && (k.last.wait.Some? ==> k.last.wait.value <= seconds)
      && 0.0 <= seconds <= MAX_INLINE_WAIT
  }

  function Known(token: string, log: seq<ApiEvent>): Facts {
    if log == [] then Start(token) else After(Known(token, log[..|log| - 1]), log[|log| - 1])
  }

  predicate Disciplined(rules: Rules, token: string, log: seq<ApiEvent>) {
    log == [] || (Disciplined(rules, token, log[..|log| - 1])
                  && Allowed(rules, Known(token, log[..|log| - 1]), log[|log| - 1]))
  }

  lemma Append(rules: Rules, token: string, log: seq<ApiEvent>, e: ApiEvent)
    ensures Known(token, log + [e]) == After(Known(token, log), e)
    ensures Disciplined(rules, token, log + [e]) <==>
              Disciplined(rules, token, log) && Allowed(rules, Known(token, log), e)
  {
    assert (log + [e])[..|log|] == log;
  }

  /** A chain whose latest event is this attempt could not have gone on. */
  predicate Spent(rules: Rules, k: Facts) {
    && k.attempts > 0 && !k.slept && !k.tried
    && !(Expired(k.last) && rules.mayRefresh && k.refreshes == 0 && k.attempts < rules.budget)
    && !(rules.read && MayRetry(k.last) && k.attempts < rules.budget)
  }

  /** What every disciplined log has: the budgets compose. */
  lemma {:induction false} BudgetsCompose(rules: Rules, token: string, log: seq<ApiEvent>)
    requires Disciplined(rules, token, log) && rules.budget >= 1
    ensures var k := Known(token, log);
            && k.attempts <= rules.budget
            && k.refreshes <= 1 && k.refreshSends <= k.refreshes && (!rules.mayRefresh ==> k.refreshes == 0)
            && 0.0 <= k.total <= MAX_INLINE_WAIT * (rules.budget - 1) as real
  {
    SleepsCounted(rules, token, log);
    var k := Known(token, log);
    var slots := if k.slept then k.attempts else k.attempts - 1;
    if k.attempts > 0 {
      assert slots <= rules.budget - 1;
      MinutesMonotone(slots, rules.budget - 1);
    } else {
      MinutesMonotone(0, rules.budget - 1);
    }
  }

  lemma MinutesMonotone(a: int, b: int)
    requires a <= b
    ensures MAX_INLINE_WAIT * a as real <= MAX_INLINE_WAIT * b as real
  {
  }

  lemma {:induction false} SleepsCounted(rules: Rules, token: string, log: seq<ApiEvent>)
    requires Disciplined(rules, token, log)
    ensures var k := Known(token, log);
            && k.attempts <= rules.budget
            && (k.slept ==> 0 < k.attempts < rules.budget)
            && k.refreshes <= 1 && k.refreshSends <= k.refreshes && (!rules.mayRefresh ==> k.refreshes == 0)
            && (k.attempts == 0 ==> k.total == 0.0) && k.total >= 0.0
            && (k.attempts > 0 ==> k.total <= MAX_INLINE_WAIT * (if k.slept then k.attempts else k.attempts - 1) as real)
  {
    if log != [] {
      var before := log[..|log| - 1];
      SleepsCounted(rules, token, before);
      var k := Known(token, before);
      if log[|log| - 1].Attempted? && k.attempts > 0 {
        MinutesMonotone(k.attempts - 1, k.attempts);
      }
    }
  }

  /** A chain that is not a reviewed read reaches the wire a second time only after its
      first attempt ended as expired and one refresh succeeded; at most one of its
      attempts ends in anything else. */
  lemma {:induction false} WritesAreNotReplayed(rules: Rules, token: string, log: seq<ApiEvent>)
    requires Disciplined(rules, token, log) && !rules.read
    ensures var k := Known(token, log);
            && k.attempts <= 2 && k.others <= 1
            && !k.slept && k.total == 0.0
            && (k.attempts == 2 ==> k.refreshes == 1)
            && (k.attempts <= 1 ==> (k.others == 0 <==> k.attempts == 0 || Expired(k.last)))
            && (k.renewed ==> k.attempts == 1 && k.others == 0 && k.refreshes == 1)
  {
    if log != [] {
      WritesAreNotReplayed(rules, token, log[..|log| - 1]);
    }
  }

  /** With a budget of one nothing follows the first attempt. */
  lemma {:induction false} OneSend(rules: Rules, token: string, log: seq<ApiEvent>)
    requires Disciplined(rules, token, log) && rules.budget == 1
    ensures |log| <= 1 && Known(token, log).attempts == |log|
  {
    if log != [] {
      OneSend(rules, token, log[..|log| - 1]);
    }
  }

  /** The i-th event of a disciplined log was allowed when it happened. */
  lemma {:induction false} AllowedThen(rules: Rules, token: string, log: seq<ApiEvent>, i: nat)
    requires Disciplined(rules, token, log) && i < |log|
    ensures Disciplined(rules, token, log[..i]) && Allowed(rules, Known(token, log[..i]), log[i])
  {
    if i < |log| - 1 {
      AllowedThen(rules, token, log[..|log| - 1], i);
      assert log[..|log| - 1][..i] == log[..i];
    }
  }

  /** The second attempt of a write, wherever it stands, was preceded by exactly an
      expired first attempt and a refresh that produced the token it carries. */
  lemma SecondWriteIsRecovery(rules: Rules, token: string, log: seq<ApiEvent>, i: nat)
    requires Disciplined(rules, token, log) && !rules.read && i < |log|
    requires log[i].Attempted? && Known(token, log[..i]).attempts == 1
    ensures i == 2
    ensures log[0].Attempted? && Expired(log[0].attempt)
    ensures log[1] == Refreshed(true, Some(log[2].token))
  {
    AllowedThen(rules, token, log, i);
    WritesAreNotReplayed(rules, token, log[..i]);
    LogOfOne(rules, token, log[..i]);
  }

  /** After one attempt and one refresh a write's log is those two events. */
  lemma LogOfOne(rules: Rules, token: string, log: seq<ApiEvent>)
    requires Disciplined(rules, token, log) && !rules.read
    requires Known(token, log).attempts == 1 && Known(token, log).renewed
    ensures |log| == 2 && log[0].Attempted? && Expired(log[0].attempt)
    ensures log[1] == Refreshed(true, Some(Known(token, log).token))
  {
    var b := log[..|log| - 1];
    WritesAreNotReplayed(rules, token, b);
    assert log[|log| - 1].Refreshed?;
    assert Known(token, b).attempts == 1 && Known(token, b).refreshes == 0;
    var a := b[..|b| - 1];
    WritesAreNotReplayed(rules, token, a);
    assert b[|b| - 1].Attempted?;
    assert Known(token, a).attempts == 0 && Known(token, a).refreshes == 0;
    if a != [] {
      WritesAreNotReplayed(rules, token, a[..|a| - 1]);
    }
    assert a == [];
  }

  /** A success that carries error_kind "credentials_expired" in its own body counts as
      expired; the provider's code 0 alone does not prevent it.  What then becomes of a write
      is WriteReplayedIff. */
  lemma EchoedKindCountsAsExpired(wait: Header, grant: Grant)
    ensures var success := Returned(Response(200, Object(IntCode(0), Some(EXPIRED)), wait, grant));
            && ProviderCode(success.value.body) == Some(0)
            && !RejectedAsExpired(success)
            && Expired(Classify(success))
  {
  }

  // ---- Sends ---------------------------------------------------------------

  const AUTH_TARGET := "https://auth.tiktok-shops.com/api/v2/token/refresh"

  function SendsOf(path: string, e: ApiEvent): seq<Event> {
    match e
    case Attempted(_, _) => [Sent(path, Urllib)]
    case Refreshed(sent, _) => if sent then [Sent(AUTH_TARGET, Urllib)] else []
    case Waited(_) => []
  }

  /** The sends behind a log: one by urllib per attempt and per refresh that got that far. */
  function Sends(path: string, log: seq<ApiEvent>): seq<Event> {
    if log == [] then [] else Sends(path, log[..|log| - 1]) + SendsOf(path, log[|log| - 1])
  }

  lemma SendsAppend(path: string, log: seq<ApiEvent>, e: ApiEvent)
    ensures Sends(path, log + [e]) == Sends(path, log) + SendsOf(path, e)
  {
    assert (log + [e])[..|log|] == log;
  }

  // ---- The log and the wire ------------------------------------------------

  datatype Token = Token(access: string, refresh: string, refreshExpiry: Option<int>)

  predicate Blank(s: string) {
    forall i :: 0 <= i < |s| ==> IsSpace(s[i])
  }

  /** A grant that may be stored: a token, a positive expiry, no blank refresh token. */
  predicate Complete(grant: Grant) {
    && grant.Granted?
    && !Blank(grant.access)
    && grant.expiry > 0
    && (grant.refresh.Some? ==> !Blank(grant.refresh.value))
  }

  /** Whether a refresh gets as far as a send. */
  predicate Refreshable(store: Option<Token>, now: int) {
    && store.Some? && store.value.refresh != ""
    && !(store.value.refreshExpiry.Some? && now >= store.value.refreshExpiry.value)
  }

  /** The token a reply grants, if its grant is complete. */
  function GrantOf(reply: Reply<Response>): Option<string> {
    if reply.Answer? && Complete(reply.value.grant) then Some(reply.value.grant.access) else None
  }

  /** What a chain meets: the replies, where they start, whether a refresh is sent, and whether
      the token it brings can be saved. */
  datatype Setting = Setting(world: nat -> Reply<Response>, from: nat, refreshable: bool, saves: bool)

  /** The token a refresh sent as the k-th send brings: granted completely, and saved. */
  function RenewalAt(s: Setting, k: nat): Option<string> {
    if s.saves then GrantOf(s.world(s.from + k)) else None
  }

  /** The outcome of the k-th send of the chain. */
  function OutcomeAt(s: Setting, k: nat): Outcome<Response> {
    AsOutcome(s.world(s.from + k))
  }

  /** An event after k sends says what the reply at its own position says. */
  predicate Matches(s: Setting, k: nat, e: ApiEvent) {
    match e
    case Attempted(_, a) => a == Classify(OutcomeAt(s, k))
    case Refreshed(sent, token) =>
      sent == s.refreshable && token == if sent then RenewalAt(s, k) else None
    case Waited(_) => true
  }

  function Used(log: seq<ApiEvent>): nat {
    if log == [] then 0
    else
      var last := log[|log| - 1];
      Used(log[..|log| - 1]) + if last.Attempted? || (last.Refreshed? && last.sent) then 1 else 0
  }

  /** Attempts and refresh sends are all there is on the wire. */
  lemma {:induction false} SendsCounted(path: string, token: string, log: seq<ApiEvent>)
    ensures |Sends(path, log)| == Used(log) == Known(token, log).attempts + Known(token, log).refreshSends
  {
    if log != [] {
      SendsCounted(path, token, log[..|log| - 1]);
    }
  }

  /** Every event of the log comes from the wire. */
  predicate FromWire(s: Setting, log: seq<ApiEvent>) {
    log == [] || (FromWire(s, log[..|log| - 1]) && Matches(s, Used(log[..|log| - 1]), log[|log| - 1]))
  }

  lemma WireAppend(s: Setting, log: seq<ApiEvent>, e: ApiEvent)
    ensures FromWire(s, log + [e]) <==> FromWire(s, log) && Matches(s, Used(log), e)
    ensures Used(log + [e]) == Used(log) + if e.Attempted? || (e.Refreshed? && e.sent) then 1 else 0
  {
    assert (log + [e])[..|log|] == log;
  }

  /** The i-th event carries the reply at its own position. */
  lemma {:induction false} MatchesThen(s: Setting, log: seq<ApiEvent>, i: nat)
    requires FromWire(s, log) && i < |log|
    ensures FromWire(s, log[..i]) && Matches(s, Used(log[..i]), log[i])
  {
    if i < |log| - 1 {
      MatchesThen(s, log[..|log| - 1], i);
      assert log[..|log| - 1][..i] == log[..i];
    }
  }

  lemma {:induction false} LastIsAttempt(rules: Rules, token: string, log: seq<ApiEvent>)
    requires Disciplined(rules, token, log)
    requires Known(token, log).attempts > 0 && !Known(token, log).slept && !Known(token, log).tried
    ensures log != [] && log[|log| - 1].Attempted? && log[|log| - 1].attempt == Known(token, log).last
  {
  }

  /** What a Retry-After header asks for. */
  function AskedBy(h: Header): Option<real> {
    match h
    case Seconds(x) => Some(x)
    case DateFromNow(x) => Some(x)
    case NoHeader => None
    case Unusable => None
  }

  /** The wait a reply asks for. */
  function Asked(outcome: Outcome<Response>): Option<real> {
    match outcome
    case Returned(v) => AskedBy(v.retryAfter)
    case Threw(HttpError(_, _), Some(v)) => AskedBy(v.retryAfter)
    case _ => None
  }

  /** Status 429 or the provider's rate limit, and no refusal that comes first. */
  predicate LimitedBy(status: int, code: Option<nat>) {
    && (status == 429 || code == Some(36009002))
    && status != 401 && code !in {Some(105005), Some(36009043), Some(36009044), Some(36009037)}
  }

  /** The reply says that the rate is limited; a success may say so in its own body. */
  predicate Limited(outcome: Outcome<Response>) {
    match outcome
    case Threw(HttpError(status, _), Some(v)) => LimitedBy(status, ProviderCode(v.body))
    case Returned(v) =>
      var code := ProviderCode(v.body);
      && code.Some?
      && if code == Some(0) then v.body.Object? && v.body.errorKind == Some(RATE_LIMITED) else LimitedBy(v.status, code)
    case _ => false
  }

  predicate Transient(outcome: Outcome<Response>) {
    outcome.Threw? && !outcome.exc.HttpError? && Retryable(outcome.exc)
  }

  /** The replies after which a read may go on: rate limited or a transient failure, and not
      asking for more than a minute. */
  predicate Inviting(outcome: Outcome<Response>) {
    (Limited(outcome) || Transient(outcome)) && (Asked(outcome).Some? ==> Asked(outcome).value <= 60.0)
  }

  lemma RetriedIff(outcome: Outcome<Response>)
    ensures MayRetry(Classify(outcome)) <==> Inviting(outcome)
    ensures Inviting(outcome) ==>
              && Classify(outcome).wait.Some? == Asked(outcome).Some?
              && (Asked(outcome).Some? && Asked(outcome).value > 0.0 ==> Classify(outcome).wait == Asked(outcome))
              && (Asked(outcome).Some? && Asked(outcome).value <= 0.0 ==> Classify(outcome).wait == Some(0.0))
  {
    hide Retryable, CertificateError;
    KindLimited(outcome);
    NotLimitedKinds();
    hide Kind, ProviderCode;
  }

  lemma KindLimited(outcome: Outcome<Response>)
    ensures forall status, code :: Kind(status, code) == RATE_LIMITED <==> LimitedBy(status, code)
  {
    hide ProviderCode;
    assert |RATE_LIMITED| == 12 && |EXPIRED| == 19 && |"scope_denied"| == 12 && |"http_error"| == 10;
    assert RATE_LIMITED[0] == 'r' && "scope_denied"[0] == 's';
    assert "inactive_shop"[0] == 'i' && "inactive_seller"[0] == 'i' && "sandbox_hourly_limit"[0] == 's';
    assert "authentication_unclassified"[0] == 'a' && |"redirect_blocked"| == 16 && |"provider_error"| == 14;
  }

  lemma NotLimitedKinds()
    ensures RATE_LIMITED !in ["error_body_unavailable", "certificate_verification_failed", "transport_outcome_unknown",
                              "invalid_response"]
  {
    assert RATE_LIMITED[0] == 'r';
    assert "error_body_unavailable"[0] == 'e' && "certificate_verification_failed"[0] == 'c';
    assert "transport_outcome_unknown"[0] == 't' && "invalid_response"[0] == 'i';
  }

  /** How long an allowed sleep is, against the n-th delay configured and the wait accepted. */
  lemma SleepBounds(rules: Rules, k: Facts, seconds: real)
    requires Allowed(rules, k, Waited(seconds))
    ensures rules.backoff != [] && k.attempts > 0 && MayRetry(k.last) && !k.slept && !k.tried && 0.0 <= seconds <= 60.0
    ensures var n, last := k.attempts - 1, |rules.backoff| - 1;
            var delay := rules.backoff[if n < last then n else last];
            && (delay <= seconds || seconds == 60.0)
            && (seconds <= delay + 0.5 || k.last.wait == Some(seconds))
    ensures k.last.wait.Some? ==> k.last.wait.value <= seconds
  {
    hide MayRetry;
  }

  /** Every sleep follows an attempt whose reply, at that attempt's own position on the wire,
      invites another: so none follows a reply that asks for more than a minute.  It is at least
      as long as the reply's Retry-After and as the delay configured for that attempt, never
      longer than a minute, and longer than that delay by more than half a second only because
      the reply asked for exactly so much. */
  lemma SleepHonoursReply(s: Setting, rules: Rules, token: string, log: seq<ApiEvent>, i: nat)
    requires Disciplined(rules, token, log) && FromWire(s, log) && i < |log| && log[i].Waited?
    ensures i > 0 && log[i - 1].Attempted?
    ensures var reply, seconds := OutcomeAt(s, Used(log[..i - 1])), log[i].seconds;
            && Inviting(reply)
            && (Asked(reply).Some? ==> Asked(reply).value <= seconds)
            && 0.0 <= seconds <= 60.0
            && rules.backoff != [] && Known(token, log[..i]).attempts > 0
            && var n, last := Known(token, log[..i]).attempts - 1, |rules.backoff| - 1;
            && var delay := rules.backoff[if n < last then n else last];
            && (delay <= seconds || seconds == 60.0)
            && (seconds <= delay + 0.5 || Asked(reply) == Some(seconds) || seconds == 0.0)
  {
    AllowedThen(rules, token, log, i);
    LastIsAttempt(rules, token, log[..i]);
    MatchesThen(s, log, i - 1);
    RetriedIff(OutcomeAt(s, Used(log[..i - 1])));
    SleepBounds(rules, Known(token, log[..i]), log[i].seconds);
    assert log[..i][..i - 1] == log[..i - 1];
    hide Known, Used, Classify, Inviting, MayRetry, FromWire, Disciplined, Asked, OutcomeAt, Allowed;
  }

  /** A read does not give up early: if it ended by no failed refresh and with budget left, the
      last reply did not invite another attempt. */
  lemma ReadGivesUpLast(s: Setting, rules: Rules, token: string, log: seq<ApiEvent>)
    requires Disciplined(rules, token, log) && FromWire(s, log) && rules.read
    requires Spent(rules, Known(token, log)) && Known(token, log).attempts < rules.budget
    ensures log != [] && !Inviting(OutcomeAt(s, Used(log[..|log| - 1])))
  {
    LastIsAttempt(rules, token, log);
    MatchesThen(s, log, |log| - 1);
    RetriedIff(OutcomeAt(s, Used(log[..|log| - 1])));
    hide Classify, Inviting;
  }

  /** A token that may be stored is one that says something, with an expiry. */
  lemma GrantIff(reply: Reply<Response>)
    ensures GrantOf(reply).Some?
       <==> && reply.Answer? && reply.value.grant.Granted?
            && var g := reply.value.grant;
            && (exists i :: 0 <= i < |g.access| && !IsSpace(g.access[i])) && g.expiry > 0
            && (g.refresh.Some? ==> exists i :: 0 <= i < |g.refresh.value| && !IsSpace(g.refresh.value[i]))
    ensures GrantOf(reply).Some? ==> GrantOf(reply).value == reply.value.grant.access
  {
  }

  /** A chain that is over: nothing more is allowed, or its refresh failed. */
  predicate Over(rules: Rules, k: Facts) {
    Spent(rules, k) || (k.tried && !k.renewed)
  }

  // ---- Writes --------------------------------------------------------------

  const WRITE := Rules(false, 2, true, [])

  /** Whether a write is sent a second time: its first answer counts as expired, the refresh is
      sent, its grant is complete and the token is saved. */
  predicate SentTwice(s: Setting) {
    Expired(Classify(OutcomeAt(s, 0))) && s.refreshable && RenewalAt(s, 1).Some?
  }

  /** The whole log of a write that may recover, as the replies decide it. */
  function WriteLog(s: Setting, token: string): seq<ApiEvent> {
    var first := Attempted(token, Classify(OutcomeAt(s, 0)));
    var grant := if s.refreshable then RenewalAt(s, 1) else None;
    if !Expired(first.attempt) then [first]
    else if grant.None? then [first, Refreshed(s.refreshable, None)]
    else [first, Refreshed(true, grant), Attempted(grant.value, Classify(OutcomeAt(s, 2)))]
  }

  /** What a disciplined write has done so far is the beginning of that log. */
  lemma {:induction false} WriteSoFar(s: Setting, token: string, log: seq<ApiEvent>)
    requires Disciplined(WRITE, token, log) && FromWire(s, log)
    ensures log <= WriteLog(s, token)
    ensures Known(token, log) == Known(token, WriteLog(s, token)[..|log|]) && Used(log) == Used(WriteLog(s, token)[..|log|])
  {
    var all := WriteLog(s, token);
    if log != [] {
      var before, e := log[..|log| - 1], log[|log| - 1];
      WriteSoFar(s, token, before);
      StepOfWrite(s, token, before, e);
      assert log == before + [e];
    }
    assert all[..|log|] == log;
  }

  /** The only event a write may add next is the next one of its log. */
  lemma StepOfWrite(s: Setting, token: string, before: seq<ApiEvent>, e: ApiEvent)
    requires before <= WriteLog(s, token)
    requires Allowed(WRITE, Known(token, before), e) && Matches(s, Used(before), e)
    ensures |before| < |WriteLog(s, token)| && e == WriteLog(s, token)[|before|]
  {
    FactsOfWrite(s, token, |before|);
    assert before == WriteLog(s, token)[..|before|];
    hide Known, Used, Classify, Complete, RenewalAt;
  }

  /** What the first n events of a write's log establish. */
  lemma FactsOfWrite(s: Setting, token: string, n: nat)
    requires n <= |WriteLog(s, token)|
    ensures var k, all := Known(token, WriteLog(s, token)[..n]), WriteLog(s, token);
            && Used(all[..n]) == (if n == 2 && !s.refreshable then 1 else n)
            && (n == 0 ==> k == Start(token))
            && (n == 1 ==> k.attempts == 1 && k.refreshes == 0 && !k.slept && !k.tried && !k.renewed
                           && k.token == token && k.last == all[0].attempt)
            && (n == 2 ==> k.attempts == 1 && k.refreshes == 1 && !k.slept && k.tried && Expired(k.last)
                           && k.renewed == all[1].grantedToken.Some?
                           && (k.renewed ==> k.token == all[1].grantedToken.value))
            && (n == 3 ==> k.attempts == 2 && k.refreshes == 1 && !k.slept && !k.tried && !k.renewed)
  {
    var all := WriteLog(s, token);
    hide Classify, Complete, Expired, RenewalAt;
    if n > 0 {
      assert all[..n][..n - 1] == all[..n - 1];
      FactsOfWrite(s, token, n - 1);
    }
  }

  /** The log of a finished write is exactly what the replies decide. */
  lemma WriteIsDecided(s: Setting, token: string, log: seq<ApiEvent>)
    requires Disciplined(WRITE, token, log) && FromWire(s, log) && Over(WRITE, Known(token, log))
    ensures log == WriteLog(s, token)
  {
    WriteSoFar(s, token, log);
    FactsOfWrite(s, token, |log|);
    assert log == WriteLog(s, token)[..|log|];
    hide Known, Used, Classify, Complete, RenewalAt;
  }

  /** The attempts of a log that did not end in the provider's rejection. */
  function Unrejected(s: Setting, log: seq<ApiEvent>): nat {
    if log == [] then 0
    else
      var before := log[..|log| - 1];
      Unrejected(s, before)
      + if log[|log| - 1].Attempted? && !RejectedAsExpired(OutcomeAt(s, Used(before))) then 1 else 0
  }

  /** When exactly a write is replayed.  Over every run of a write that may recover: it is sent
      twice if and only if its first answer counts as expired, the refresh is sent, its grant is
      complete and the token is saved; it is sent twice without a rejection by the provider if and
      only if that answer was a success echoing the word; and two of its attempts end in anything
      but the rejection if and only if, besides, the second answer is no rejection either. */
  lemma WriteReplayedIff(s: Setting, token: string, log: seq<ApiEvent>)
    requires Disciplined(WRITE, token, log) && FromWire(s, log) && Over(WRITE, Known(token, log))
    ensures Known(token, log).attempts == if SentTwice(s) then 2 else 1
    ensures Known(token, log).attempts == 2 && !RejectedAsExpired(OutcomeAt(s, 0))
       <==> EchoesExpired(OutcomeAt(s, 0)) && s.refreshable && RenewalAt(s, 1).Some?
    ensures Unrejected(s, log) == 2
       <==> EchoesExpired(OutcomeAt(s, 0)) && s.refreshable && RenewalAt(s, 1).Some?
            && !RejectedAsExpired(OutcomeAt(s, 2))
    ensures Unrejected(s, log) <= 2
  {
    WriteIsDecided(s, token, log);
    FactsOfWrite(s, token, |log|);
    assert log == WriteLog(s, token)[..|log|];
    ExpiredIff(OutcomeAt(s, 0));
    EchoIsNoRejection(OutcomeAt(s, 0));
    UnrejectedOfWrite(s, token);
    hide Known, Used, Classify, Complete, RenewalAt, RejectedAsExpired, EchoesExpired, Unrejected;
  }

  lemma EchoIsNoRejection(outcome: Outcome<Response>)
    ensures EchoesExpired(outcome) ==> !RejectedAsExpired(outcome)
  {
  }

  lemma UnrejectedOfWrite(s: Setting, token: string)
    ensures Unrejected(s, WriteLog(s, token))
         == (if RejectedAsExpired(OutcomeAt(s, 0)) then 0 else 1)
            + if SentTwice(s) && !RejectedAsExpired(OutcomeAt(s, 2)) then 1 else 0
  {
    var all := WriteLog(s, token);
    hide Classify, Complete, RenewalAt, RejectedAsExpired;
    assert all[..1] == [all[0]] && [all[0]][..0] == [];
    assert Unrejected(s, [all[0]]) == if RejectedAsExpired(OutcomeAt(s, 0)) then 0 else 1;
    if |all| > 1 {
      assert all[..2] == [all[0], all[1]] && [all[0], all[1]][..1] == [all[0]];
      FactsOfWrite(s, token, 2);
    }
  }
}
