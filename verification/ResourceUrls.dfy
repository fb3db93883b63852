/** The rules a resource URL must pass before it is fetched, on a URL taken apart as urlsplit
    takes it apart.  Text is ASCII. */
module ResourceUrls {
  import opened Decimal
  import opened Text
  import opened Wrappers

  /** A URL as it is written, so that two spellings differ; `keys` are the decoded keys of the
      query.  A part is None when its mark is absent, and may be empty behind its mark. */
  datatype Url = Url(scheme: string, user: Option<string>, host: string, port: Option<string>, path: string,
                     query: Option<string>, keys: seq<string>, fragment: Option<string>)

  function Part(mark: string, part: Option<string>): string {
    if part.Some? then mark + part.value else ""
  }

  function Address(u: Url): string {
    "://" + (if u.user.Some? then u.user.value + "@" else "") + u.host + Part(":", u.port) + u.path
  }

  function Written(u: Url): string {
    u.scheme + Address(u) + Part("?", u.query) + Part("#", u.fragment)
  }

  /** A port that is no number in range is bad. */
  datatype Port = NoPort | Port(n: nat) | BadPort

  function PortOf(u: Url): Port {
    if u.port.None? || u.port.value == "" then NoPort
    else if AllDigits(u.port.value) && NatValue(u.port.value) <= 65535 then Port(NatValue(u.port.value))
    else BadPort
  }

  const MAX_LENGTH := 16384

  const SIGNATURE_KEYS := [
    "sign", "signature", "x-signature", "auth_key", "x-amz-signature", "x-amz-credential", "x-amz-security-token",
    "ossaccesskeyid"]

  const CREDENTIAL_WORDS := [
    "token", "secret", "password", "passwd", "authorization", "credential", "apikey", "api_key", "api-key",
    "accesskey", "access_key", "access-key"]

  predicate Https(u: Url) {
    LowerAll(u.scheme) == "https"
  }

  function DefaultPort(u: Url): nat {
    if Https(u) then 443 else 80
  }

  datatype Origin = Origin(https: bool, host: string, port: Port)

  /** _origin */
  function OriginOf(u: Url): Origin {
    var port := PortOf(u);
    Origin(Https(u), LowerAll(u.host), if port == NoPort || port == Port(0) then Port(DefaultPort(u)) else port)
  }

  predicate IsSignature(key: string) {
    LowerAll(key) in SIGNATURE_KEYS
  }

  /** A key that names a credential and is no known signature. */
  predicate IsCredential(key: string) {
    !IsSignature(key) && ContainsAny(LowerAll(key), CREDENTIAL_WORDS)
  }

  predicate Signed(u: Url) {
    exists i :: 0 <= i < |u.keys| && IsSignature(u.keys[i])
  }

  /** No space, backslash or control character. */
  predicate CleanChar(c: char) {
    !IsSpace(c) && c != '\\' && 32 <= c as int && c as int != 127
  }

  predicate Clean(s: string) {
    forall i :: 0 <= i < |s| ==> CleanChar(s[i])
  }

  function WithoutDots(host: string): (h: string)
    ensures |h| <= |host|
  {
    if host != "" && host[|host| - 1] == '.' then WithoutDots(host[..|host| - 1]) else host
  }

  /** A host that may be public: qualified or an address, and in no private zone. */
  predicate PublicHost(host: string) {
    var h := LowerAll(WithoutDots(host));
    && ('.' in h || ':' in h)
    && h != "localhost"
    && !EndsWith(h, ".localhost") && !EndsWith(h, ".local") && !EndsWith(h, ".internal")
  }

  /** A lower-case name that is qualified, or an address, and in no private zone. */
  predicate Qualified(h: string) {
    && ('.' in h || ':' in h)
    && !EndsWith(h, ".localhost") && !EndsWith(h, ".local") && !EndsWith(h, ".internal")
  }

  /** A host is public exactly if, in lower case and without its last dots, it is qualified. */
  lemma PublicHostIff(host: string, n: nat)
    requires n <= |host| && (n > 0 ==> host[n - 1] != '.') && forall i :: n <= i < |host| ==> host[i] == '.'
    ensures PublicHost(host) <==> Qualified(LowerAll(host[..n]))
  {
    DotsGo(host, n);
    var h := LowerAll(host[..n]);
    if h == "localhost" {
      assert '.' !in "localhost" && ':' !in "localhost";
    }
    hide EndsWith;
  }

  lemma {:induction false} DotsGo(host: string, n: nat)
    requires n <= |host| && (n > 0 ==> host[n - 1] != '.') && forall i :: n <= i < |host| ==> host[i] == '.'
    ensures WithoutDots(host) == host[..n]
    decreases |host|
  {
    if n < |host| {
      DotsGo(host[..|host| - 1], n);
      assert host[..|host| - 1][..n] == host[..n];
    } else {
      assert host[..n] == host;
    }
  }

  /** The rules that need neither the resolver nor the request. */
  predicate Lexical(u: Url) {
    && 0 < |Written(u)| <= MAX_LENGTH && Clean(Written(u))
    && LowerAll(u.scheme) in ["http", "https"] && u.host != "" && u.user.None?
    && '%' !in u.host && PortOf(u) in [NoPort, Port(DefaultPort(u))]
    && |u.keys| <= 100 && (forall i :: 0 <= i < |u.keys| ==> !IsCredential(u.keys[i]))
    && PublicHost(u.host)
  }

  /** Printable, and neither a space nor a backslash. */
  predicate Visible(s: string) {
    forall i :: 0 <= i < |s| ==> 33 <= s[i] as int && s[i] as int != 127 && s[i] != '\\'
  }

  /** A key that is a known signature, or names no credential. */
  predicate Harmless(key: string) {
    || LowerAll(key) in {"sign", "signature", "x-signature", "auth_key", "x-amz-signature", "x-amz-credential",
                         "x-amz-security-token", "ossaccesskeyid"}
    || forall k :: 0 <= k < |CREDENTIAL_WORDS| ==> !Contains(LowerAll(key), CREDENTIAL_WORDS[k])
  }

  /** What the lexical rules come to: at most 16384 visible characters; http or https without
      credentials; the default port, if any; at most a hundred harmless keys; a public host. */
  lemma LexicalIff(u: Url)
    ensures Lexical(u) <==>
            && 1 <= |Written(u)| <= 16384 && Visible(Written(u))
            && (LowerAll(u.scheme) == "http" || LowerAll(u.scheme) == "https") && u.user == None
            && u.host != "" && '%' !in u.host && PublicHost(u.host)
            && (u.port.None? || u.port.value == ""
                || (AllDigits(u.port.value) && NatValue(u.port.value) == if LowerAll(u.scheme) == "https" then 443 else 80))
            && |u.keys| <= 100 && forall i :: 0 <= i < |u.keys| ==> Harmless(u.keys[i])
  {
    VisibleIff(Written(u));
    forall i | 0 <= i < |u.keys| ensures Harmless(u.keys[i]) <==> !IsCredential(u.keys[i]) {
      HarmlessIff(u.keys[i]);
    }
    hide Written, Clean, Visible, Harmless, IsCredential, PublicHost, NatValue, AllDigits, LowerAll;
  }

  lemma VisibleIff(s: string)
    ensures Clean(s) <==> Visible(s)
  {
  }

  lemma HarmlessIff(key: string)
    ensures Harmless(key) <==> !IsCredential(key)
  {
    hide LowerAll, Contains;
  }

  /** Two URLs that may be fetched have one origin exactly if scheme and host agree up to case. */
  lemma OriginsAgreeIff(a: Url, b: Url)
    requires Lexical(a) && Lexical(b)
    ensures OriginOf(a) == OriginOf(b)
       <==> LowerAll(a.scheme) == LowerAll(b.scheme) && LowerAll(a.host) == LowerAll(b.host)
  {
    hide LowerAll, PublicHost, IsCredential, Clean, Written;
  }

  datatype ContentKind = Image | Html

  /** What may be fetched: the lexical rules; and a signature is carried only by an image source,
      over https, to the origin it was issued for. */
  predicate Carried(u: Url, kind: ContentKind, signedOrigin: Origin) {
    Lexical(u) && (Signed(u) ==> kind == Image && Https(u) && OriginOf(u) == signedOrigin)
  }

  /** _validate_url without the resolver; a redirect never leaves https. */
  predicate Permitted(u: Url, kind: ContentKind, signedOrigin: Origin, previous: Option<Url>) {
    Carried(u, kind, signedOrigin) && (previous.Some? && Https(previous.value) ==> Https(u))
  }

  /** urldefrag: a URL with a fragment is put together again without it, its scheme in lower
      case and without the mark of an empty query; any other is left as it is written. */
  function Defragmented(u: Url): Url {
    if u.fragment.None? then u
    else
      u.(scheme := LowerAll(u.scheme), query := if u.query == Some("") then None else u.query, fragment := None)
  }

  lemma CleanParts(a: string, b: string)
    ensures Clean(a + b) <==> Clean(a) && Clean(b)
  {
    var s := a + b;
    if Clean(s) {
      assert forall i :: 0 <= i < |a| ==> a[i] == s[i] && CleanChar(s[i]);
      assert forall i :: 0 <= i < |b| ==> b[i] == s[|a| + i] && CleanChar(s[|a| + i]);
    }
  }

  lemma LowerKeeps(s: string)
    ensures LowerAll(LowerAll(s)) == LowerAll(s)
    ensures Clean(s) ==> Clean(LowerAll(s))
  {
  }

  /** Without its fragment a URL passes what it passed with it. */
  lemma DefragmentedIsCarried(u: Url, kind: ContentKind, signedOrigin: Origin)
    requires Carried(u, kind, signedOrigin)
    ensures Carried(Defragmented(u), kind, signedOrigin)
  {
    if u.fragment.Some? {
      var v := Defragmented(u);
      LowerKeeps(u.scheme);
      assert Address(v) == Address(u);
      assert Written(v) == v.scheme + Address(v) + Part("?", v.query);
      hide Address, IsCredential, IsSignature, PublicHost, PortOf, CleanChar, LowerAll;
      CleanParts(u.scheme + Address(u) + Part("?", u.query), Part("#", u.fragment));
      CleanParts(u.scheme + Address(u), Part("?", u.query));
      CleanParts(u.scheme, Address(u));
      CleanParts(v.scheme, Address(u));
      CleanParts(v.scheme + Address(u), Part("?", v.query));
      assert PortOf(v) == PortOf(u);
      assert Lexical(v);
    }
  }
}
