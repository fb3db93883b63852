/** One resource download: at most four single-hop GETs, at most three redirects, and one
    byte budget shared by all attempts.  Servers, redirects and the resolver are arbitrary. */
module ResourceDownload {
  import opened Decimal
  import opened Text
  import opened Wrappers
  import opened HttpRetry
  import opened ResourceUrls

  type Byte = n: int | 0 <= n < 256

  // ---- What servers do -----------------------------------------------------

  datatype Read = Chunk(bytes: seq<Byte>) | Incomplete(partial: seq<Byte>) | Fails(exc: Exc)

  datatype Head = Head(status: int, mime: string, encoding: string, lengths: seq<string>)

  /** What one GET meets: an HTTP error with its Location targets, a failure before any
      byte, or a response whose k-th read is feed(k). */
  datatype Hop =
    | HttpFailure(status: int, targets: seq<Url>, closes: bool)
    | NoResponse(exc: Exc)
    | Body(head: Head, feed: nat -> Read, decodes: bool)

  const CHUNK := 65536
  const MAX_ATTEMPTS := 4
  const MAX_REDIRECTS := 3

  function Least(a: int, b: int): int {
    if a < b then a else b
  }

  /** A read of n bytes never delivers more than n. */
  function Delivered(bytes: seq<Byte>, n: nat): (d: seq<Byte>)
    ensures |d| <= n
  {
    bytes[..Least(|bytes|, n)]
  }

  predicate MimeAllowed(kind: ContentKind, mime: string) {
    match kind
    case Image => mime in ["image/jpeg", "image/png", "image/webp", "image/gif"]
    case Html => mime in ["text/html", "application/xhtml+xml"]
  }

  /** The declared length, if there is exactly one readable header; None is a refusal. */
  function DeclaredLength(lengths: seq<string>): Option<Option<nat>> {
    if lengths == [] then Some(None)
    else if |lengths| == 1 && lengths[0] != "" && AllDigits(lengths[0]) && |lengths[0]| <= 12 then
      Some(Some(NatValue(lengths[0])))
    else None
  }

  datatype BodyResult = Complete(data: seq<Byte>) | Transient | Broken(exc: Exc) | Refused

  datatype Result = Data(bytes: seq<Byte>) | Failed

  // ---- The fetched path ----------------------------------------------------

  /** The i-th GET repeats the one before or goes to a URL not fetched yet, never from
      https back to http. */
  predicate GoodStep(path: seq<Url>, i: nat)
    requires 0 < i < |path|
  {
    && (path[i] == path[i - 1] || path[i] !in path[..i])
    && (Https(path[i - 1]) ==> Https(path[i]))
  }

  ghost predicate GoodPath(path: seq<Url>) {
    forall i :: 0 < i < |path| ==> GoodStep(path, i)
  }

  function Moves(path: seq<Url>): nat {
    if |path| < 2 then 0
    else Moves(path[..|path| - 1]) + if path[|path| - 1] == path[|path| - 2] then 0 else 1
  }

  lemma PathAppend(path: seq<Url>, u: Url)
    requires GoodPath(path)
    requires path != [] ==>
      (u == path[|path| - 1] || u !in path) && (Https(path[|path| - 1]) ==> Https(u))
    ensures GoodPath(path + [u])
    ensures Moves(path + [u]) == Moves(path) + if path == [] || path[|path| - 1] == u then 0 else 1
  {
    var longer := path + [u];
    assert longer[..|path|] == path;
    forall i | 0 < i < |longer| ensures GoodStep(longer, i) {
      if i < |path| {
        assert GoodStep(path, i);
        assert longer[..i] == path[..i];
      }
    }
  }

  /** From the first https URL on, every fetched URL is https. */
  lemma {:induction false} NeverBackToHttp(path: seq<Url>, i: nat, j: nat)
    requires GoodPath(path) && i <= j < |path| && Https(path[i])
    ensures Https(path[j])
    decreases j - i
  {
    if i < j {
      assert GoodStep(path, j);
      NeverBackToHttp(path, i, j - 1);
    }
  }

  /** A URL left behind is never fetched again. */
  lemma {:induction false} NeverRevisited(path: seq<Url>, i: nat, j: nat, k: nat)
    requires GoodPath(path) && i < j < k < |path|
    requires path[i] != path[j]
    ensures path[k] != path[i]
    decreases k
  {
    assert GoodStep(path, k);
    if path[k] == path[k - 1] {
      if j < k - 1 {
        NeverRevisited(path, i, j, k - 1);
      }
    } else {
      assert path[i] == path[..k][i];
    }
  }

  /** Every fetched URL passes the lexical rules, and a signature is fetched only by an image
      source, over https, at its own origin. */
  ghost predicate AllCarried(path: seq<Url>, kind: ContentKind, signedOrigin: Origin) {
    forall u :: u in path ==> Carried(u, kind, signedOrigin)
  }

  /** What one hop makes of the next GET: a redirect with one target, closed in order, is
      followed to it; a transient failure, or a body that was not complete, is repeated. */
  predicate Follows(hop: Hop, from: Url, to: Url) {
    match hop
    case HttpFailure(status, targets, closes) =>
      && (status == 301 || status == 302 || status == 303 || status == 307 || status == 308)
      && |targets| == 1 && closes && to == Defragmented(targets[0]) && to != from
    case NoResponse(exc) => to == from && Retryable(exc) && !CertificateError(exc)
    case Body(_, _, _) => to == from
  }

  /** Every GET but the first follows from the hop before it. */
  ghost predicate PathFollows(hops: nat -> Hop, path: seq<Url>) {
    forall i :: 0 < i < |path| ==> Follows(hops(i - 1), path[i - 1], path[i])
  }

  lemma PathFollowsAppend(hops: nat -> Hop, path: seq<Url>, u: Url)
    requires PathFollows(hops, path)
    requires path != [] ==> Follows(hops(|path| - 1), path[|path| - 1], u)
    ensures PathFollows(hops, path + [u])
  {
    hide Follows;
    var longer := path + [u];
    forall i | 0 < i < |longer| ensures Follows(hops(i - 1), longer[i - 1], longer[i]) {
    }
  }

  /** A response that may be delivered: complete, of a kind that was asked for, and as long as
      it declares. */
  predicate Serves(kind: ContentKind, head: Head, data: seq<Byte>) {
    && head.status == 200 && head.encoding == "identity" && data != []
    && (if kind.Image? then head.mime == "image/jpeg" || head.mime == "image/png" || head.mime == "image/webp"
                            || head.mime == "image/gif"
        else head.mime == "text/html" || head.mime == "application/xhtml+xml")
    && (head.lengths == []
        || (|head.lengths| == 1 && |head.lengths[0]| <= 12 && AllDigits(head.lengths[0])
            && NatValue(head.lengths[0]) == |data|))
  }

  /** A signature is fetched only by an image source, over https, from the host it was issued for. */
  lemma SignatureStaysHome(path: seq<Url>, kind: ContentKind, start: Url, u: Url, k: nat)
    requires AllCarried(path, kind, OriginOf(start)) && u in path && Lexical(start)
    requires k < |u.keys|
    requires LowerAll(u.keys[k]) in {"sign", "signature", "x-signature", "auth_key", "x-amz-signature", "x-amz-credential",
                                     "x-amz-security-token", "ossaccesskeyid"}
    ensures kind == Image && LowerAll(u.scheme) == "https" == LowerAll(start.scheme)
    ensures LowerAll(u.host) == LowerAll(start.host)
  {
    assert IsSignature(u.keys[k]);
    assert Carried(u, kind, OriginOf(start));
    OriginsAgreeIff(u, start);
    hide LowerAll, IsSignature, Lexical;
  }

  lemma EmptyPath(kind: ContentKind, signedOrigin: Origin)
    ensures GoodPath([]) && Moves([]) == 0 && AllCarried([], kind, signedOrigin)
  {
  }

  /** What an answer leads to. */
  datatype Next = Deliver(data: seq<Byte>) | Stop | Again | MoveTo(target: Url)

  // ---- What a download comes to --------------------------------------------

  /** The reads from the k-th on, with so much of the budget left and this much data read:
      what they come to and what is left. */
  function Stream(feed: nat -> Read, k: nat, rest: nat, data: seq<Byte>): (BodyResult, int)
    decreases rest
  {
    var size := Least(CHUNK, rest + 1);
    match feed(k)
    case Incomplete(partial) => (Transient, rest - |Delivered(partial, size)|)
    case Fails(exc) => (Broken(exc), rest)
    case Chunk(bytes) =>
      var part := Delivered(bytes, size);
      if |part| > rest then (Refused, rest - |part|)
      else if part == [] then (Complete(data), rest)
      else Stream(feed, k + 1, rest - |part|, data + part)
  }

  /** What reading a body comes to, and what is left of the budget. */
  function BodyOf(kind: ContentKind, head: Head, feed: nat -> Read, rest: nat): (BodyResult, int) {
    var declared := DeclaredLength(head.lengths);
    if head.status != 200 || !MimeAllowed(kind, head.mime) || head.encoding != "identity" || declared.None?
       || (declared.value.Some? && declared.value.value > rest) then (Refused, rest)
    else
      var (r, left) := Stream(feed, 0, rest, []);
      if !r.Complete? then (r, left)
      else if declared.value.Some? && |r.data| != declared.value.value then (Transient, left)
      else if r.data == [] then (Refused, left)
      else (r, left)
  }

  lemma CompleteServes(kind: ContentKind, head: Head, feed: nat -> Read, rest: nat)
    ensures var r := BodyOf(kind, head, feed, rest).0; r.Complete? ==> Serves(kind, head, r.data)
  {
    hide Stream;
  }

  predicate RetriesHere(exc: Exc, left: int) {
    Retryable(exc) && !CertificateError(exc) && left > 0
  }

  /** A URL that passes the checks, with the resolver's answer to this lookup. */
  function Checked(u: Url, kind: ContentKind, origin: Origin, previous: Option<Url>, resolver: nat -> bool, lookups: nat)
    : (Option<Url>, nat)
  {
    if !Permitted(u, kind, origin, previous) then (None, lookups)
    else (if resolver(lookups) then Some(Defragmented(u)) else None, lookups + 1)
  }

  /** Where the download stands before a GET. */
  datatype Place = Place(current: Url, previous: Option<Url>, visited: set<Url>, redirects: nat, rest: int, lookups: nat)

  function Answered(kind: ContentKind, origin: Origin, resolver: nat -> bool, hop: Hop, at: Place): (Next, int, nat)
    requires at.rest >= 0
  {
    match hop
    case HttpFailure(status, targets, closes) =>
      if status !in {301, 302, 303, 307, 308} || |targets| != 1 then (Stop, at.rest, at.lookups)
      else
        var (target, lookups) := Checked(targets[0], kind, origin, Some(at.current), resolver, at.lookups);
        if target.None? || target.value in at.visited || at.redirects + 1 > MAX_REDIRECTS || !closes then
          (Stop, at.rest, lookups)
        else (MoveTo(target.value), at.rest, lookups)
    case NoResponse(exc) => (if RetriesHere(exc, at.rest) then Again else Stop, at.rest, at.lookups)
    case Body(head, feed, decodes) =>
      var (body, left) := BodyOf(kind, head, feed, at.rest);
      var next := match body
        case Complete(data) => if decodes then Deliver(data) else Stop
        case Refused => Stop
        case Transient => if left > 0 then Again else Stop
        case Broken(exc) => if RetriesHere(exc, left) then Again else Stop;
      (next, left, at.lookups)
  }

  /** The result, as the answers from this attempt on decide it. */
  function Walk(kind: ContentKind, origin: Origin, resolver: nat -> bool, hops: nat -> Hop, at: Place, attempt: nat): Result
    requires at.rest >= 0
    decreases MAX_ATTEMPTS - attempt
  {
    if attempt >= MAX_ATTEMPTS then Failed
    else
      var (url, lookups) := Checked(at.current, kind, origin, at.previous, resolver, at.lookups);
      if url.None? then Failed
      else
        var here := Place(url.value, at.previous, at.visited + {url.value}, at.redirects, at.rest, lookups);
        var (next, left, asked) := Answered(kind, origin, resolver, hops(attempt), here);
        match next
        case Deliver(data) => Data(data)
        case Stop => Failed
        case Again =>
          if left < 0 then Failed
          else Walk(kind, origin, resolver, hops, here.(rest := left, lookups := asked), attempt + 1)
        case MoveTo(target) =>
          if left < 0 then Failed
          else
            var there := Place(target, Some(url.value), here.visited, at.redirects + 1, left, asked);
            Walk(kind, origin, resolver, hops, there, attempt + 1)
  }

  /** One turn of the walk. */
  lemma WalkTurn(kind: ContentKind, origin: Origin, resolver: nat -> bool, hops: nat -> Hop, at: Place, attempt: nat)
    requires at.rest >= 0 && attempt < MAX_ATTEMPTS
    ensures var (url, lookups) := Checked(at.current, kind, origin, at.previous, resolver, at.lookups);
            var all := Walk(kind, origin, resolver, hops, at, attempt);
            if url.None? then all == Failed
            else
              var here := Place(url.value, at.previous, at.visited + {url.value}, at.redirects, at.rest, lookups);
              var (next, left, asked) := Answered(kind, origin, resolver, hops(attempt), here);
              match next
              case Deliver(data) => all == Data(data)
              case Stop => all == Failed
              case Again =>
                left >= 0 ==>
                  all == Walk(kind, origin, resolver, hops, here.(rest := left, lookups := asked), attempt + 1)
              case MoveTo(target) =>
                left >= 0 ==>
                  all == Walk(kind, origin, resolver, hops,
                              Place(target, Some(url.value), here.visited, at.redirects + 1, left, asked), attempt + 1)
  {
    hide Checked, Answered;
  }

  /** The reads of a server that sends these chunks and then ends. */
  predicate Sends(feed: nat -> Read, chunks: seq<seq<Byte>>) {
    && (forall k :: 0 <= k < |chunks| ==> feed(k) == Chunk(chunks[k]) && 0 < |chunks[k]| <= CHUNK)
    && feed(|chunks|) == Chunk([])
  }

  function Joined(chunks: seq<seq<Byte>>): seq<Byte> {
    if chunks == [] then [] else Joined(chunks[..|chunks| - 1]) + chunks[|chunks| - 1]
  }

  lemma {:induction false} StreamServes(feed: nat -> Read, chunks: seq<seq<Byte>>, k: nat, limit: nat)
    requires Sends(feed, chunks) && k <= |chunks| && |Joined(chunks)| <= limit
    ensures |Joined(chunks[..k])| <= |Joined(chunks)|
    ensures Stream(feed, k, limit - |Joined(chunks[..k])|, Joined(chunks[..k])) == (Complete(Joined(chunks)), limit - |Joined(chunks)|)
    decreases |chunks| - k
  {
    if k == |chunks| {
      assert chunks[..k] == chunks;
    } else {
      StreamServes(feed, chunks, k + 1, limit);
      assert chunks[..k + 1][..k] == chunks[..k];
      var so := Joined(chunks[..k]);
      assert Joined(chunks[..k + 1]) == so + chunks[k];
      assert feed(k) == Chunk(chunks[k]);
      var size := Least(CHUNK, limit - |so| + 1);
      assert Delivered(chunks[k], size) == chunks[k];
    }
  }

  /** A good server is served: a permitted URL, a public address, a response of the right kind
      and length within the budget come to exactly the bytes that were sent. */
  lemma GoodServerIsRead(kind: ContentKind, start: Url, resolver: nat -> bool, hops: nat -> Hop, limit: nat, lookups: nat,
                         head: Head, feed: nat -> Read, chunks: seq<seq<Byte>>)
    requires Carried(start, kind, OriginOf(start)) && resolver(lookups)
    requires hops(0) == Body(head, feed, true) && Sends(feed, chunks)
    requires Serves(kind, head, Joined(chunks)) && |Joined(chunks)| <= limit
    ensures Walk(kind, OriginOf(start), resolver, hops, Place(start, None, {}, 0, limit, lookups), 0) == Data(Joined(chunks))
  {
    var at := Place(start, None, {}, 0, limit, lookups);
    WalkTurn(kind, OriginOf(start), resolver, hops, at, 0);
    StreamServes(feed, chunks, 0, limit);
    assert chunks[..0] == [];
    BodyServes(kind, head, feed, limit, Joined(chunks));
    hide BodyOf, Carried, Serves, Walk, Sends, Joined;
  }

  lemma BodyServes(kind: ContentKind, head: Head, feed: nat -> Read, limit: nat, data: seq<Byte>)
    requires Serves(kind, head, data) && |data| <= limit
    requires Stream(feed, 0, limit, []) == (Complete(data), limit - |data|)
    ensures BodyOf(kind, head, feed, limit) == (Complete(data), limit - |data|)
  {
    hide Stream;
  }

  /** The place once its own URL has passed the checks. */
  function Arrived(at: Place): Place {
    var url := Defragmented(at.current);
    at.(current := url, visited := at.visited + {url}, lookups := at.lookups + 1)
  }

  /** A transient failure is repeated while a byte of the budget is left. */
  lemma TransientIsRepeated(kind: ContentKind, origin: Origin, resolver: nat -> bool, hops: nat -> Hop, at: Place,
                            attempt: nat, exc: Exc)
    requires attempt < 4 && at.rest > 0 && Permitted(at.current, kind, origin, at.previous) && resolver(at.lookups)
    requires hops(attempt) == NoResponse(exc) && Retryable(exc) && !CertificateError(exc)
    ensures Walk(kind, origin, resolver, hops, at, attempt) == Walk(kind, origin, resolver, hops, Arrived(at), attempt + 1)
  {
    WalkTurn(kind, origin, resolver, hops, at, attempt);
    assert Answered(kind, origin, resolver, hops(attempt), Arrived(at)) == (Again, at.rest, at.lookups + 1) by {
      hide Retryable, CertificateError;
    }
    hide Walk, Permitted, Answered, Retryable, CertificateError;
  }

  /** A body cut off in its first read is repeated, and what was read of it is paid for. */
  lemma CutBodyIsRepeated(kind: ContentKind, origin: Origin, resolver: nat -> bool, hops: nat -> Hop, at: Place,
                          attempt: nat, head: Head, feed: nat -> Read, decodes: bool, partial: seq<Byte>, data: seq<Byte>)
    requires attempt < 4 && Permitted(at.current, kind, origin, at.previous) && resolver(at.lookups)
    requires hops(attempt) == Body(head, feed, decodes) && feed(0) == Incomplete(partial)
    requires Serves(kind, head, data) && |data| <= at.rest && |partial| < at.rest && |partial| <= CHUNK
    ensures Walk(kind, origin, resolver, hops, at, attempt)
         == Walk(kind, origin, resolver, hops, Arrived(at).(rest := at.rest - |partial|), attempt + 1)
  {
    WalkTurn(kind, origin, resolver, hops, at, attempt);
    CutBody(kind, head, feed, at.rest, partial, data);
    assert Answered(kind, origin, resolver, hops(attempt), Arrived(at)) == (Again, at.rest - |partial|, at.lookups + 1) by {
      hide BodyOf, Serves;
    }
    hide Walk, Permitted, Answered, Serves;
  }

  lemma CutBody(kind: ContentKind, head: Head, feed: nat -> Read, rest: nat, partial: seq<Byte>, data: seq<Byte>)
    requires feed(0) == Incomplete(partial) && |partial| <= rest && |partial| <= CHUNK
    requires Serves(kind, head, data) && |data| <= rest
    ensures BodyOf(kind, head, feed, rest) == (Transient, rest - |partial|)
  {
    assert Delivered(partial, Least(CHUNK, rest + 1)) == partial;
    assert Stream(feed, 0, rest, []) == (Transient, rest - |partial|);
    hide Stream;
  }

  /** A redirect to a new permitted URL is followed, three times. */
  lemma RedirectIsFollowed(kind: ContentKind, origin: Origin, resolver: nat -> bool, hops: nat -> Hop, at: Place,
                           attempt: nat, status: int, target: Url)
    requires attempt < 4 && at.rest >= 0 && at.redirects < 3
    requires Permitted(at.current, kind, origin, at.previous) && resolver(at.lookups)
    requires hops(attempt) == HttpFailure(status, [target], true)
    requires status == 301 || status == 302 || status == 303 || status == 307 || status == 308
    requires var here := Arrived(at);
             && Permitted(target, kind, origin, Some(here.current)) && resolver(at.lookups + 1)
             && Defragmented(target) !in here.visited
    ensures var here := Arrived(at);
            Walk(kind, origin, resolver, hops, at, attempt)
            == Walk(kind, origin, resolver, hops,
                    Place(Defragmented(target), Some(here.current), here.visited, at.redirects + 1, at.rest, at.lookups + 2),
                    attempt + 1)
  {
    WalkTurn(kind, origin, resolver, hops, at, attempt);
    hide Walk, Permitted;
  }

  class Download {
    const kind: ContentKind
    const limit: nat
    const hops: nat -> Hop
    const resolver: nat -> bool
    var remaining: int
    var lookups: nat
    var fetched: seq<Url>
    ghost var pulled: seq<Byte>

    ghost predicate Valid()
      reads this
    {
      -1 <= remaining && |pulled| == limit - remaining
    }

    constructor (kind: ContentKind, limit: nat, hops: nat -> Hop, resolver: nat -> bool)
      ensures this.kind == kind && this.limit == limit
      ensures Valid() && remaining == limit && fetched == []
    {
      this.kind, this.limit, this.hops, this.resolver := kind, limit, hops, resolver;
      remaining, lookups, fetched, pulled := limit, 0, [], [];
    }

    /** _validate_url: the URL without its fragment, or a refusal. */
    method Validate(u: Url, signedOrigin: Origin, previous: Option<Url>) returns (r: Option<Url>)
      modifies this`lookups
      ensures r.Some? ==> Permitted(u, kind, signedOrigin, previous) && r.value == Defragmented(u)
      ensures (r, lookups) == Checked(u, kind, signedOrigin, previous, resolver, old(lookups))
    {
      if !Permitted(u, kind, signedOrigin, previous) {
        return None;
      }
      lookups := lookups + 1;
      if !resolver(lookups - 1) {
        return None;
      }
      return Some(Defragmented(u));
    }

    /** The reading loop: at most one byte more than the rest of the budget is ever pulled. */
    method ReadStream(feed: nat -> Read) returns (r: BodyResult)
      requires Valid() && remaining >= 0
      modifies this`remaining, this`pulled
      ensures Valid() && old(pulled) <= pulled
      ensures (r, remaining) == Stream(feed, 0, old(remaining), [])
      ensures r.Refused? ==> remaining < 0
      ensures r.Complete? ==> remaining >= 0 && pulled == old(pulled) + r.data
    {
      var data: seq<Byte> := [];
      var k := 0;
      while true
        invariant Valid() && remaining >= 0
        invariant pulled == old(pulled) + data
        invariant Stream(feed, 0, old(remaining), []) == Stream(feed, k, remaining, data)
        decreases remaining
      {
        var size := Least(CHUNK, remaining + 1);
        match feed(k) {
          case Incomplete(partial) =>
            var part := Delivered(partial, size);
            remaining := remaining - |part|;
            pulled := pulled + part;
            return Transient;
          case Fails(exc) =>
            return Broken(exc);
          case Chunk(bytes) =>
            var part := Delivered(bytes, size);
            remaining := remaining - |part|;
            pulled := pulled + part;
            if remaining < 0 {
              return Refused;
            }
            if part == [] {
              return Complete(data);
            }
            data := data + part;
        }
        k := k + 1;
      }
    }

    /** _read_body: what it returns is exactly what this attempt pulled, and as long as declared. */
    method ReadBody(head: Head, feed: nat -> Read) returns (r: BodyResult)
      requires Valid() && remaining >= 0
      modifies this`remaining, this`pulled
      ensures Valid() && old(pulled) <= pulled
      ensures (r, remaining) == BodyOf(kind, head, feed, old(remaining))
      ensures r.Complete? ==> remaining >= 0 && pulled == old(pulled) + r.data && r.data != []
      ensures r.Complete? ==>
                && head.status == 200 && MimeAllowed(kind, head.mime) && head.encoding == "identity"
                && DeclaredLength(head.lengths).Some?
                && (DeclaredLength(head.lengths).value.Some? ==> |r.data| == DeclaredLength(head.lengths).value.value)
    {
      hide MimeAllowed, DeclaredLength, Stream;
      if head.status != 200 || !MimeAllowed(kind, head.mime) || head.encoding != "identity" {
        return Refused;
      }
      var declared := DeclaredLength(head.lengths);
      if declared.None? {
        return Refused;
      }
      var length := declared.value;
      if length.Some? && length.value > remaining {
        return Refused;
      }
      r := ReadStream(feed);
      if r.Complete? && length.Some? && |r.data| != length.value {
        r := Transient;
      } else if r.Complete? && r.data == [] {
        r := Refused;
      }
    }

    /** One answer to a GET of `at.current`, the URLs in `at.visited` having been fetched. */
    method Answer(hop: Hop, at: Place, signedOrigin: Origin) returns (next: Next)
      requires Valid() && remaining >= 0 && at.rest == remaining && at.lookups == lookups
      modifies this`remaining, this`pulled, this`lookups
      ensures Valid() && old(pulled) <= pulled
      ensures (next, remaining, lookups) == Answered(kind, signedOrigin, resolver, hop, at)
      ensures next.Deliver? ==> remaining >= 0 && pulled == old(pulled) + next.data && next.data != []
      ensures next.Again? || next.MoveTo? ==> remaining >= 0
    {
      hide Retryable, CertificateError, BodyOf, Checked;
      match hop {
        case HttpFailure(status, targets, closes) =>
          if status !in {301, 302, 303, 307, 308} || |targets| != 1 {
            return Stop;
          }
          var target := Validate(targets[0], signedOrigin, Some(at.current));
          if target.None? || target.value in at.visited || at.redirects + 1 > MAX_REDIRECTS || !closes {
            return Stop;
          }
          return MoveTo(target.value);
        case NoResponse(exc) =>
          return if RetriesHere(exc, remaining) then Again else Stop;
        case Body(head, feed, decodes) =>
          var body := ReadBody(head, feed);
          match body {
            case Complete(data) =>
              return if decodes then Deliver(data) else Stop;
            case Refused =>
              return Stop;
            case Transient =>
              return if remaining > 0 then Again else Stop;
            case Broken(exc) =>
              return if RetriesHere(exc, remaining) then Again else Stop;
          }
      }
    }

    /** Checks and logs one GET. */
    method Visit(u: Url, start: Url, previous: Option<Url>) returns (r: Option<Url>)
      requires GoodPath(fetched) && AllCarried(fetched, kind, OriginOf(start))
      requires fetched == [] || (u.fragment.None? && (u == fetched[|fetched| - 1] || u !in fetched)
                                 && (Https(fetched[|fetched| - 1]) ==> Https(u)))
      modifies this`lookups, this`fetched
      ensures (r, lookups) == Checked(u, kind, OriginOf(start), previous, resolver, old(lookups))
      ensures r.None? ==> fetched == old(fetched)
      ensures r.Some? ==> r.value == Defragmented(u) && fetched == old(fetched) + [r.value]
      ensures GoodPath(fetched) && AllCarried(fetched, kind, OriginOf(start))
      ensures r.Some? ==>
                Moves(fetched) == Moves(old(fetched)) + if old(fetched) == [] || old(fetched)[|old(fetched)| - 1] == u then 0 else 1
    {
      hide GoodPath, Moves, Carried;
      r := Validate(u, OriginOf(start), previous);
      if r.None? { return; }
      assert fetched != [] ==> r.value == u;
      DefragmentedIsCarried(u, kind, OriginOf(start));
      PathAppend(fetched, r.value);
      fetched := fetched + [r.value];
    }

    /** What a delivering or moving answer guarantees. */
    lemma AnswerMeans(hop: Hop, at: Place, signedOrigin: Origin)
      requires at.rest >= 0
      ensures var next := Answered(kind, signedOrigin, resolver, hop, at).0;
              && (next.Deliver? ==> hop.Body? && hop.decodes && Serves(kind, hop.head, next.data))
              && (next.Again? ==> Follows(hop, at.current, at.current))
              && (next.MoveTo? ==>
                    && (at.current in at.visited ==> Follows(hop, at.current, next.target))
                    && at.redirects < MAX_REDIRECTS && next.target !in at.visited && next.target.fragment.None?
                    && (Https(at.current) ==> Https(next.target)))
    {
      if hop.Body? {
        CompleteServes(kind, hop.head, hop.feed, at.rest);
      }
      hide BodyOf, Carried, Serves, Retryable, CertificateError;
    }

    /** Where the loop stands before the GET of an attempt. */
    ghost predicate Stands(start: Url, at: Place, attempt: nat)
      reads this
    {
      && Valid() && remaining >= 0 && at.rest == remaining && at.lookups == lookups
      && |fetched| == attempt && GoodPath(fetched) && AllCarried(fetched, kind, OriginOf(start))
      && (forall u :: u in fetched ==> u in at.visited)
      && PathFollows(hops, fetched)
      && (attempt > 0 ==> Follows(hops(attempt - 1), fetched[attempt - 1], at.current))
      && at.redirects <= MAX_REDIRECTS
      && Moves(fetched) + (if attempt > 0 && at.current != fetched[attempt - 1] then 1 else 0) <= at.redirects
      && if attempt == 0 then at.current == start && at.redirects == 0
         else
           && fetched[0] == Defragmented(start)
           && at.current.fragment.None? && (at.current == fetched[attempt - 1] || at.current !in fetched)
           && (Https(fetched[attempt - 1]) ==> Https(at.current))
    }

    /** What holds when the download ends. */
    ghost predicate Ended(start: Url, result: Result)
      reads this
    {
      && Valid() && |pulled| <= limit + 1
      && |fetched| <= 4 && GoodPath(fetched) && Moves(fetched) <= 3
      && AllCarried(fetched, kind, OriginOf(start))
      && (fetched != [] ==> fetched[0] == Defragmented(start)) && PathFollows(hops, fetched)
      && (result.Data? ==>
            && |pulled| <= limit && result.bytes != [] && |result.bytes| <= |pulled|
            && pulled[|pulled| - |result.bytes|..] == result.bytes
            && fetched != []
            && hops(|fetched| - 1).Body? && hops(|fetched| - 1).decodes
            && Serves(kind, hops(|fetched| - 1).head, result.bytes))
    }

    /** One turn of the loop. */
    method Turn(start: Url, at: Place, attempt: nat) returns (done: Option<Result>, there: Place)
      requires Stands(start, at, attempt) && attempt < MAX_ATTEMPTS
      modifies this
      ensures done.Some? ==> Ended(start, done.value)
      ensures done.None? ==> Stands(start, there, attempt + 1)
      ensures Walk(kind, OriginOf(start), resolver, hops, at, attempt)
           == if done.Some? then done.value else Walk(kind, OriginOf(start), resolver, hops, there, attempt + 1)
    {
      hide GoodPath, Moves, AllCarried, Answered, Checked, Carried, Https, Walk, PathFollows, Follows, Serves;
      WalkTurn(kind, OriginOf(start), resolver, hops, at, attempt);
      var checked := Visit(at.current, start, at.previous);
      there := at;
      if checked.None? {
        return Some(Failed), there;
      }
      PathFollowsAppend(hops, old(fetched), checked.value);
      there := Place(checked.value, at.previous, at.visited + {checked.value}, at.redirects, remaining, lookups);
      AnswerMeans(hops(attempt), there, OriginOf(start));
      var next := Answer(hops(attempt), there, OriginOf(start));
      done := None;
      match next {
        case Deliver(data) =>
          assert data == pulled[|pulled| - |data|..];
          done := Some(Data(data));
        case Stop =>
          done := Some(Failed);
        case Again =>
          there := there.(rest := remaining, lookups := lookups);
        case MoveTo(target) =>
          there := Place(target, Some(checked.value), there.visited, there.redirects + 1, remaining, lookups);
      }
    }

    lemma StandsAtStart(start: Url)
      requires Valid() && remaining == limit && fetched == []
      ensures Stands(start, Place(start, None, {}, 0, remaining, lookups), 0)
    {
      EmptyPath(kind, OriginOf(start));
      hide Carried;
    }

    /** Out of attempts the download has failed, within its budgets. */
    lemma OutOfAttempts(start: Url, at: Place)
      requires Stands(start, at, MAX_ATTEMPTS)
      ensures Ended(start, Failed)
      ensures Walk(kind, OriginOf(start), resolver, hops, at, MAX_ATTEMPTS) == Failed
    {
      hide GoodPath, Moves, AllCarried;
    }

    /** read_resource, over every behaviour of servers and resolver: the result is what the
        answers decide, within the budgets. */
    method ReadResource(start: Url) returns (result: Result)
      requires Valid() && remaining == limit && fetched == []
      modifies this
      ensures Ended(start, result)
      ensures result == Walk(kind, OriginOf(start), resolver, hops, Place(start, None, {}, 0, limit, old(lookups)), 0)
    {
      var at := Place(start, None, {}, 0, remaining, lookups);
      var attempt := 0;
      StandsAtStart(start);
      hide Stands, Ended, Walk;
      while attempt < MAX_ATTEMPTS
        invariant 0 <= attempt <= MAX_ATTEMPTS && Stands(start, at, attempt)
        invariant Walk(kind, OriginOf(start), resolver, hops, Place(start, None, {}, 0, limit, old(lookups)), 0)
               == Walk(kind, OriginOf(start), resolver, hops, at, attempt)
      {
        var done, there := Turn(start, at, attempt);
        if done.Some? {
          return done.value;
        }
        at, attempt := there, attempt + 1;
      }
      OutOfAttempts(start, at);
      return Failed;
    }
  }
}
