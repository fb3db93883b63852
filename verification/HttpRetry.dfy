/** The transport: which failures may be retried, and a bounded loop over one or two
    ways of sending.  The outside world is an arbitrary stream of replies. */
module HttpRetry {
  import opened Text
  import opened Wrappers

  // ---- Exceptions ----------------------------------------------------------

  /** The classes the classifiers tell apart; a UrlError carries another exception or a
      message, as urllib.error.URLError does. */
  datatype Exc =
    | HttpError(status: int, text: string)
    | UrlError(reason: Reason)
    | CertError(text: string)
    | SslError(text: string)
    | ConnectionReset(text: string)
    | TimedOut(text: string)
    | OsError(text: string)
    | OtherError(text: string)

  datatype Reason = Nested(exc: Exc) | Message(text: string)

  function Str(e: Exc): string {
    match e
    case UrlError(Nested(inner)) => "<urlopen error " + Str(inner) + ">"
    case UrlError(Message(text)) => "<urlopen error " + text + ">"
    case other => other.text
  }

  /** str(reason or exc) of a UrlError */
  function ReasonText(e: Exc): string
    requires e.UrlError?
  {
    match e.reason
    case Nested(inner) => Str(inner)
    case Message(text) => if text == "" then Str(e) else text
  }

  const CERTIFICATE_TOKENS := [
    "certificate_verify_failed", "certificate verify failed", "hostname mismatch",
    "certificate has expired", "unable to get local issuer certificate"]

  const TRANSIENT_TOKENS := [
    "ssl", "eof", "timed out", "timeout", "connection reset", "broken pipe",
    "connection refused", "network is unreachable"]

  predicate CertificateError(e: Exc) {
    match e
    case CertError(_) => true
    case UrlError(Nested(inner)) => CertificateError(inner)
    case UrlError(Message(text)) => ContainsAny(LowerAll(text), CERTIFICATE_TOKENS)
    case other => ContainsAny(LowerAll(other.text), CERTIFICATE_TOKENS)
  }

  predicate Retryable(e: Exc) {
    if e.HttpError? || CertificateError(e) then false
    else match e
      case CertError(_) => true
      case SslError(_) => true
      case ConnectionReset(_) => true
      case TimedOut(_) => true
      case UrlError(Nested(inner)) => Retryable(inner)
      case UrlError(Message(_)) => ContainsAny(LowerAll(ReasonText(e)), TRANSIENT_TOKENS)
      case OsError(text) => ContainsAny(LowerAll(text), ["timed out", "connection reset"])
      case _ => false
  }

  predicate CurlFallbackError(e: Exc) {
    if e.HttpError? || CertificateError(e) then false
    else match e
      case ConnectionReset(_) => true
      case UrlError(reason) =>
        || (reason.Nested? && (reason.exc.ConnectionReset? || reason.exc.SslError? || reason.exc.CertError?))
        || ContainsAny(LowerAll(ReasonText(e)), ["ssl", "eof"])
      case CertError(_) => true
      case SslError(_) => true
      case _ => Contains(LowerAll(Str(e)), "ssl") && Contains(LowerAll(Str(e)), "eof")
  }

  /** The exception and everything nested in it, outermost first. */
  function Layers(e: Exc): (layers: seq<Exc>)
    ensures |layers| > 0 && layers[0] == e
  {
    if e.UrlError? && e.reason.Nested? then [e] + Layers(e.reason.exc) else [e]
  }

  predicate Plain(e: Exc) {
    !(e.UrlError? && e.reason.Nested?)
  }

  function Innermost(e: Exc): (r: Exc)
    ensures Plain(r) && r in Layers(e)
  {
    if Plain(e) then e
    else
      var r := Innermost(e.reason.exc);
      assert Layers(e)[1..] == Layers(e.reason.exc);
      r
  }

  function OwnText(e: Exc): string
    requires Plain(e)
  {
    if e.UrlError? then e.reason.text else e.text
  }

  predicate AnyVerificationError(layers: seq<Exc>) {
    exists k :: 0 <= k < |layers| && layers[k].CertError?
  }

  lemma AnyVerificationErrorCons(e: Exc, rest: seq<Exc>)
    ensures AnyVerificationError([e] + rest) <==> e.CertError? || AnyVerificationError(rest)
  {
    var layers := [e] + rest;
    assert layers[0] == e;
    assert forall k :: 0 <= k < |rest| ==> layers[k + 1] == rest[k];
  }

  /** A certificate failure, as found: a verification error at some depth, or a message
      that names one at the innermost depth. */
  lemma {:induction false} CertificateErrorIff(e: Exc)
    ensures CertificateError(e) <==>
            AnyVerificationError(Layers(e)) || ContainsAny(LowerAll(OwnText(Innermost(e))), CERTIFICATE_TOKENS)
  {
    hide LowerAll, ContainsAny, AnyVerificationError;
    if Plain(e) {
      AnyVerificationErrorCons(e, []);
      assert Layers(e) == [e] + [];
      assert !AnyVerificationError([]) by { NoLayers(); }
    } else {
      CertificateErrorIff(e.reason.exc);
      AnyVerificationErrorCons(e, Layers(e.reason.exc));
    }
  }

  lemma NoLayers()
    ensures !AnyVerificationError([])
  {
  }

  lemma RetryableExcludes(e: Exc)
    ensures Retryable(e) ==> !e.HttpError? && !CertificateError(e)
  {
  }

  /** What is retried hides neither an HTTP answer nor a certificate failure at any depth. */
  lemma {:induction false} RetryableIsTransient(e: Exc, k: nat)
    requires Retryable(e) && k < |Layers(e)|
    ensures !Layers(e)[k].HttpError? && !Layers(e)[k].CertError? && !CertificateError(Layers(e)[k])
  {
    if k > 0 {
      RetryableIsTransient(e.reason.exc, k - 1);
    }
  }

  /** What is transient at the innermost depth. */
  predicate TransientEnd(e: Exc) {
    match e
    case SslError(_) => true
    case ConnectionReset(_) => true
    case TimedOut(_) => true
    case OsError(text) => Contains(LowerAll(text), "timed out") || Contains(LowerAll(text), "connection reset")
    case UrlError(Message(_)) => ContainsAny(LowerAll(ReasonText(e)), TRANSIENT_TOKENS)
    case _ => false
  }

  /** Retried is exactly what is transient at the innermost depth and no certificate failure. */
  lemma {:induction false} RetryableIff(e: Exc)
    ensures Retryable(e) <==> !CertificateError(e) && TransientEnd(Innermost(e))
  {
    hide LowerAll, Contains, TRANSIENT_TOKENS, CERTIFICATE_TOKENS, ReasonText;
    if Plain(e) {
      if e.OsError? { ContainsAnyOfTwo(LowerAll(e.text), "timed out", "connection reset"); }
      hide ContainsAny;
    } else {
      RetryableIff(e.reason.exc);
    }
  }

  lemma ContainsAnyOfTwo(s: string, a: string, b: string)
    ensures ContainsAny(s, [a, b]) <==> Contains(s, a) || Contains(s, b)
  {
    hide Contains;
    assert [a, b][0] == a && [a, b][1] == b;
  }

  // ---- Sending -------------------------------------------------------------

  datatype WireRequest = WireRequest(verb: string, hasBody: bool, target: string)

  predicate SafeRead(r: WireRequest) {
    (UpperAll(r.verb) == "GET" || UpperAll(r.verb) == "HEAD") && !r.hasBody
  }

  datatype Via = Urllib | Curl

  datatype Event = Sent(target: string, via: Via) | Slept(seconds: real)

  /** `payload` is what an HTTP error carries, if its body could be read. */
  datatype Reply<+T> = Answer(value: T) | Fault(exc: Exc, payload: Option<T>)

  datatype Outcome<+T> = Returned(value: T) | Threw(exc: Exc, payload: Option<T>) | BadArguments

  function AsOutcome<T>(r: Reply<T>): Outcome<T> {
    match r
    case Answer(value) => Returned(value)
    case Fault(exc, payload) => Threw(exc, payload)
  }

  function Budget(r: WireRequest, attempts: nat): nat {
    if SafeRead(r) then attempts else 1
  }

  predicate Retries<T>(r: Reply<T>) {
    r.Fault? && Retryable(r.exc)
  }

  /** The way of the k-th send of a chain of at most `budget`, after reply `last`. */
  function ViaOf<T>(k: nat, budget: nat, fallback: bool, last: Reply<T>): Via {
    if k > 0 && k == budget - 1 && fallback && last.Fault? && CurlFallbackError(last.exc) then Curl else Urllib
  }

  function Delay(backoff: seq<real>, k: nat): real
    requires backoff != []
  {
    if k < |backoff| then backoff[k] else backoff[|backoff| - 1]
  }

  predicate GoodArguments(attempts: int, backoff: seq<real>) {
    attempts >= 1 && backoff != [] && forall i :: 0 <= i < |backoff| ==> backoff[i] >= 0.0
  }

  /** The log of a chain that has sent n times, starting at reply `from`. */
  function ChainLog<T>(world: nat -> Reply<T>, from: nat, n: nat, target: string, budget: nat,
                       fallback: bool, backoff: seq<real>): seq<Event>
    requires backoff != []
  {
    if n == 0 then []
    else if n == 1 then [Sent(target, Urllib)]
    else
      ChainLog(world, from, n - 1, target, budget, fallback, backoff)
      + [Slept(Delay(backoff, n - 2)), Sent(target, ViaOf(n - 1, budget, fallback, world(from + n - 2)))]
  }

  /** What the transport promises of a chain of n sends. */
  ghost predicate Bounded<T(!new)>(world: nat -> Reply<T>, from: nat, n: nat, budget: nat) {
    && 1 <= n <= budget
    && (forall k :: from <= k < from + n - 1 ==> Retries(world(k)))
    && (n < budget ==> !Retries(world(from + n - 1)))
  }

  class Wire<T(!new)> {
    const world: nat -> Reply<T>
    var cursor: nat
    var log: seq<Event>

    constructor (world: nat -> Reply<T>)
      ensures this.world == world && cursor == 0 && log == []
    {
      this.world, cursor, log := world, 0, [];
    }

    /** One send, and the reply to it. */
    method Send(target: string, via: Via) returns (reply: Reply<T>)
      modifies this`cursor, this`log
      ensures cursor == old(cursor) + 1 && log == old(log) + [Sent(target, via)]
      ensures reply == world(old(cursor))
    {
      log := log + [Sent(target, via)];
      reply := world(cursor);
      cursor := cursor + 1;
    }

    /** The loop of urlopen: it ends in a response or an exception, never by its counter. */
    method SendChain(target: string, budget: nat, fallback: bool, backoff: seq<real>) returns (last: Reply<T>)
      requires budget >= 1 && backoff != []
      modifies this`cursor, this`log
      ensures cursor > old(cursor)
      ensures Bounded(world, old(cursor), cursor - old(cursor), budget)
      ensures last == world(cursor - 1)
      ensures log == old(log) + ChainLog(world, old(cursor), cursor - old(cursor), target, budget, fallback, backoff)
    {
      hide Retryable, CertificateError, CurlFallbackError, Delay, ChainLog, Bounded;
      ghost var sent: seq<Event> := [];
      var error: Option<Exc> := None;
      var i := 0;
      while i < budget
        invariant 0 <= i < budget
        invariant cursor == old(cursor) + i
        invariant forall k :: old(cursor) <= k < cursor ==> Retries(world(k))
        invariant log == old(log) + sent
        invariant i == 0 ==> sent == []
        invariant i > 0 ==> error == Some(world(cursor - 1).exc)
        invariant i > 0 ==> sent == ChainLog(world, old(cursor), i, target, budget, fallback, backoff) + [Slept(Delay(backoff, i - 1))]
      {
        var via := Urllib;
        if i > 0 && i == budget - 1 && fallback && CurlFallbackError(error.value) {
          via := Curl;
        }
        NextSend(world, old(cursor), i, target, budget, fallback, backoff, via, sent);
        last := Send(target, via);
        sent := sent + [Sent(target, via)];
        if via == Curl || last.Answer? {
          ChainEnds(world, old(cursor), i, budget);
          return;
        }
        RetryableExcludes(last.exc);
        if last.exc.HttpError? || CertificateError(last.exc) || !Retryable(last.exc) || i >= budget - 1 {
          ChainEnds(world, old(cursor), i, budget);
          return;
        }
        error := Some(last.exc);
        log := log + [Slept(Delay(backoff, i))];
        sent := sent + [Slept(Delay(backoff, i))];
        i := i + 1;
      }
    }

    /** urlopen: `fallback` says that the caller and the environment allow curl. */
    method Urlopen(r: WireRequest, attempts: int, backoff: seq<real>, fallback: bool) returns (outcome: Outcome<T>)
      modifies this`cursor, this`log
      ensures outcome == BadArguments
         <==> attempts <= 0 || backoff == [] || exists i :: 0 <= i < |backoff| && backoff[i] < 0.0
      ensures !GoodArguments(attempts, backoff) ==>
                outcome == BadArguments && cursor == old(cursor) && log == old(log)
      ensures GoodArguments(attempts, backoff) ==>
                && cursor > old(cursor)
                && Bounded(world, old(cursor), cursor - old(cursor), Budget(r, attempts))
                && outcome == AsOutcome(world(cursor - 1))
                && log == old(log) + ChainLog(world, old(cursor), cursor - old(cursor), r.target,
                                              Budget(r, attempts), SafeRead(r) && fallback, backoff)
    {
      hide ChainLog, Bounded, SafeRead;
      if !GoodArguments(attempts, backoff) {
        return BadArguments;
      }
      var last := SendChain(r.target, Budget(r, attempts), SafeRead(r) && fallback, backoff);
      outcome := AsOutcome(last);
    }
  }

  lemma ChainEnds<T(!new)>(world: nat -> Reply<T>, from: nat, i: nat, budget: nat)
    requires i < budget
    requires forall k :: from <= k < from + i ==> Retries(world(k))
    requires !Retries(world(from + i)) || i == budget - 1
    ensures Bounded(world, from, i + 1, budget)
  {
    hide Retryable;
  }

  /** One more send extends the log of the chain. */
  lemma NextSend<T>(world: nat -> Reply<T>, from: nat, i: nat, target: string, budget: nat,
                    fallback: bool, backoff: seq<real>, via: Via, sent: seq<Event>)
    requires backoff != []
    requires i == 0 ==> sent == [] && via == Urllib
    requires i > 0 ==> sent == ChainLog(world, from, i, target, budget, fallback, backoff) + [Slept(Delay(backoff, i - 1))]
    requires i > 0 ==> Retries(world(from + i - 1))
                       && via == if i == budget - 1 && fallback && CurlFallbackError(world(from + i - 1).exc) then Curl else Urllib
    ensures sent + [Sent(target, via)] == ChainLog(world, from, i + 1, target, budget, fallback, backoff)
  {
    hide CurlFallbackError, Delay, Retryable;
  }

  function CountSends(log: seq<Event>): nat {
    if log == [] then 0 else CountSends(log[..|log| - 1]) + if log[|log| - 1].Sent? then 1 else 0
  }

  /** Curl is used at most once, only in the last slot of a budget of two or more, and
      only after a retryable error that hides no certificate failure. */
  lemma {:induction false} CurlOnlyLast<T(!new)>(world: nat -> Reply<T>, from: nat, n: nat, target: string, budget: nat,
                                           fallback: bool, backoff: seq<real>, k: nat)
    requires backoff != [] && Bounded(world, from, n, budget)
    requires k < |ChainLog(world, from, n, target, budget, fallback, backoff)|
    requires ChainLog(world, from, n, target, budget, fallback, backoff)[k] == Sent(target, Curl)
    ensures k == |ChainLog(world, from, n, target, budget, fallback, backoff)| - 1
    ensures n == budget && budget >= 2 && fallback
    ensures Retries(world(from + n - 2)) && !CertificateError(world(from + n - 2).exc)
  {
    EarlierAreUrllib(world, from, n, target, budget, fallback, backoff);
    var log := ChainLog(world, from, n, target, budget, fallback, backoff);
    if n > 1 {
      var shorter := ChainLog(world, from, n - 1, target, budget, fallback, backoff);
      assert forall j :: 0 <= j < |shorter| ==> log[j] == shorter[j] != Sent(target, Curl);
    }
  }

  lemma {:induction false} EarlierAreUrllib<T(!new)>(world: nat -> Reply<T>, from: nat, n: nat, target: string, budget: nat,
                                               fallback: bool, backoff: seq<real>)
    requires backoff != [] && 1 <= n <= budget
    ensures forall m, k :: 1 <= m < n && 0 <= k < |ChainLog(world, from, m, target, budget, fallback, backoff)|
              ==> ChainLog(world, from, m, target, budget, fallback, backoff)[k] != Sent(target, Curl)
  {
    if n > 1 {
      EarlierAreUrllib(world, from, n - 1, target, budget, fallback, backoff);
    }
  }

  /** Sends and sleeps alternate: each sleep is the delay for the failure before it, the last
      delay once they run out; and curl is the last of several slots, allowed and fit for it. */
  lemma {:induction false} ChainShape<T(!new)>(world: nat -> Reply<T>, from: nat, n: nat, target: string, budget: nat,
                                         fallback: bool, backoff: seq<real>, i: nat)
    requires backoff != [] && n >= 1
    ensures |ChainLog(world, from, n, target, budget, fallback, backoff)| == 2 * n - 1
    ensures i < 2 * n - 1 ==>
              var e := ChainLog(world, from, n, target, budget, fallback, backoff)[i];
              if i % 2 == 1 then e == Slept(backoff[if i / 2 < |backoff| - 1 then i / 2 else |backoff| - 1])
              else
                && e.Sent? && e.target == target
                && (e.via == Curl <==> i > 0 && i / 2 == budget - 1 && fallback && FitForCurl(world(from + i / 2 - 1)))
  {
    hide CurlFallbackError;
    if n > 1 {
      ChainShape(world, from, n - 1, target, budget, fallback, backoff, i);
    }
  }

  predicate FitForCurl<T(!new)>(last: Reply<T>) {
    last.Fault? && CurlFallbackError(last.exc)
  }

  /** What curl is tried for: no certificate failure, and a reset or an SSL error, itself or as
      the reason of a URL error, or a text that names SSL or an early end. */
  lemma CurlFallbackIff(e: Exc)
    ensures CurlFallbackError(e) <==>
            && !e.HttpError? && !CertificateError(e)
            && (|| e.ConnectionReset? || e.SslError?
                || (e.UrlError? && e.reason.Nested? && (e.reason.exc.ConnectionReset? || e.reason.exc.SslError?))
                || (e.UrlError? && (Contains(LowerAll(ReasonText(e)), "ssl") || Contains(LowerAll(ReasonText(e)), "eof")))
                || (!e.UrlError? && Contains(LowerAll(Str(e)), "ssl") && Contains(LowerAll(Str(e)), "eof")))
  {
    if e.UrlError? {
      ContainsAnyOfTwo(LowerAll(ReasonText(e)), "ssl", "eof");
    }
    hide LowerAll, Contains, ContainsAny, ReasonText, Str;
  }

  /** The number of sends is the number of replies used, so at most the budget. */
  lemma {:induction false} SendsAreReplies<T>(world: nat -> Reply<T>, from: nat, n: nat, target: string, budget: nat,
                                           fallback: bool, backoff: seq<real>)
    requires backoff != []
    ensures CountSends(ChainLog(world, from, n, target, budget, fallback, backoff)) == n
  {
    var log := ChainLog(world, from, n, target, budget, fallback, backoff);
    if n > 1 {
      SendsAreReplies(world, from, n - 1, target, budget, fallback, backoff);
      var shorter := ChainLog(world, from, n - 1, target, budget, fallback, backoff);
      assert log[..|log| - 1] == shorter + [log[|log| - 2]];
      assert log[..|log| - 1][..|log| - 2] == shorter;
    } else if n == 1 {
      assert log[..0] == [];
    }
  }

  /** A write, and any request given one attempt, is sent exactly once and never by curl. */
  lemma SingleShot<T(!new)>(world: nat -> Reply<T>, from: nat, n: nat, r: WireRequest, attempts: nat,
                      fallback: bool, backoff: seq<real>)
    requires backoff != [] && Bounded(world, from, n, Budget(r, attempts))
    requires r.hasBody || (UpperAll(r.verb) != "GET" && UpperAll(r.verb) != "HEAD") || attempts == 1
    ensures n == 1
    ensures ChainLog(world, from, n, r.target, Budget(r, attempts), fallback, backoff) == [Sent(r.target, Urllib)]
  {
  }
}
