/** What a single cookie may do (app/src/cookies.ts): the gates a parsed Set-Cookie passes before it may
    touch the jar, and the match that attaches a stored cookie to a request. Parsed URLs are given;
    the public suffix list is a parameter. */
module CookieRules {
  import opened Common
  import opened UriText

  datatype SameSite = Strict | Lax | CrossSite | Unset

  datatype Cookie = Cookie(
    name: string, value: string, domain: string, hostOnly: bool, path: string,
    secure: bool, httpOnly: bool, sameSite: SameSite, expires: int, created: int)

  /** RFC 6265 section 5.3 step 11: what makes two cookies the same one. */
  datatype Identity = Identity(name: string, domain: string, hostOnly: bool, path: string)

  function IdentityOf(c: Cookie): Identity {
    Identity(c.name, c.domain, c.hostOnly, c.path)
  }

  datatype Url = Url(originId: string, host: string, path: string, secure: bool)

  /** The attributes after the header has been read; `domain` is still empty when none was given. */
  datatype Attributes = Attributes(
    name: string, value: string, domain: string, hostOnly: bool, path: string, secure: bool, httpOnly: bool,
    sameSite: SameSite, expires: int, hasExpires: bool, maxAge: Option<int>)

  /** What the header reader guarantees of the record it fills. */
  predicate WellRead(a: Attributes) {
    && (a.hostOnly ==> a.domain == "")
    && (!a.hasExpires ==> a.expires == 0)
    && (a.path == "" || a.path[0] == '/')
  }

  /** The public suffix list, and the registrable domain it gives (the host itself when it gives none). */
  datatype Suffixes = Suffixes(listed: string -> bool, registrable: string -> string)

  // ----- hosts -----

  predicate EndsWith(s: string, tail: string) {
    |tail| <= |s| && s[|s| - |tail|..] == tail
  }

  predicate Digits(s: string) {
    s != "" && forall ch <- s :: '0' <= ch <= '9'
  }

  /** The dot-separated labels. */
  function Labels(s: string): (parts: seq<string>)
    ensures |parts| >= 1 && forall p <- parts :: '.' !in p
    decreases |s|
  {
    if s == "" then [""]
    else
      var rest := Labels(s[1..]);
      if s[0] == '.' then [""] + rest else [[s[0]] + rest[0]] + rest[1..]
  }

  predicate LooksLikeIp(host: string) {
    var l := Labels(host);
    |l| == 4 && Digits(l[0]) && Digits(l[1]) && Digits(l[2]) && Digits(l[3])
  }

  predicate Loopback(host: string) {
    var l := Labels(host);
    || host == "localhost"
    || EndsWith(host, ".localhost")
    || (|l| == 4 && l[0] == "127" && Digits(l[1]) && Digits(l[2]) && Digits(l[3]))
    || host == "[::1]"
  }

  predicate SecureOrigin(u: Url) {
    u.secure || Loopback(u.host)
  }

  /** The host spells a dotted address of four runs of digits. */
  predicate Address(host: string, a: string, b: string, c: string, d: string) {
    Digits(a) && Digits(b) && Digits(c) && Digits(d) && host == a + "." + (b + "." + (c + "." + d))
  }

  lemma {:induction false} FirstLabel(p: string, rest: string)
    requires '.' !in p
    ensures Labels(p + "." + rest) == [p] + Labels(rest)
    decreases |p|
  {
    var s := p + "." + rest;
    if p == "" {
      assert s[1..] == rest;
    } else {
      assert s[1..] == p[1..] + "." + rest && s[0] == p[0] != '.';
      FirstLabel(p[1..], rest);
      assert [p[0]] + p[1..] == p;
    }
  }

  lemma {:induction false} OnlyLabel(p: string)
    requires '.' !in p
    ensures Labels(p) == [p]
    decreases |p|
  {
    if p != "" {
      OnlyLabel(p[1..]);
      assert [p[0]] + p[1..] == p;
    }
  }

  function Dotted(parts: seq<string>): string {
    if parts == [] then "" else if |parts| == 1 then parts[0] else parts[0] + "." + Dotted(parts[1..])
  }

  lemma {:induction false} DottedLabels(s: string)
    ensures Dotted(Labels(s)) == s
    decreases |s|
  {
    if s != "" {
      var rest := Labels(s[1..]);
      DottedLabels(s[1..]);
      if s[0] == '.' {
        assert ([""] + rest)[1..] == rest;
      } else {
        var head := [s[0]] + rest[0];
        assert ([head] + rest[1..])[1..] == rest[1..];
      }
    }
  }

  lemma FourLabels(host: string, a: string, b: string, c: string, d: string)
    requires Address(host, a, b, c, d)
    ensures Labels(host) == [a, b, c, d]
  {
    hide Labels;
    FirstLabel(a, b + "." + (c + "." + d));
    FirstLabel(b, c + "." + d);
    FirstLabel(c, d);
    OnlyLabel(d);
    assert host == a + "." + (b + "." + (c + "." + d));
  }

  lemma AddressOfLabels(host: string)
    requires LooksLikeIp(host)
    ensures var l := Labels(host); |l| == 4 && Address(host, l[0], l[1], l[2], l[3])
  {
    var l := Labels(host);
    DottedLabels(host);
    hide Labels;
    assert l[1..][1..] == l[2..] && l[2..][1..] == l[3..] && l[3..] == [l[3]];
    assert Dotted(l[2..]) == l[2] + "." + l[3];
    assert Dotted(l[1..]) == l[1] + "." + (l[2] + "." + l[3]);
  }

  /** The hosts that are addresses. */
  lemma LooksLikeIpMeaning(host: string)
    ensures LooksLikeIp(host) <==> exists a, b, c, d :: Address(host, a, b, c, d)
  {
    if LooksLikeIp(host) {
      AddressOfLabels(host);
    }
    if a, b, c, d :| Address(host, a, b, c, d) {
      FourLabels(host, a, b, c, d);
    }
  }

  /** The hosts of the machine itself: localhost, the names below it, the block 127 and the IPv6 loopback. */
  ghost predicate OwnMachine(host: string) {
    || host == "localhost" || host == "[::1]"
    || (exists name: string :: BelowLocalhost(host, name))
    || (exists b, c, d :: Address(host, "127", b, c, d))
  }

  predicate BelowLocalhost(host: string, name: string) {
    host == name + ".localhost"
  }

  /** Which hosts may set Secure cookies over plain http. */
  lemma LoopbackMeaning(host: string)
    ensures Loopback(host) <==> OwnMachine(host)
  {
    var l := Labels(host);
    assert EndsWith(host, ".localhost") ==> BelowLocalhost(host, host[..|host| - 10]);
    hide Labels;
    if |l| == 4 && l[0] == "127" && Digits(l[1]) && Digits(l[2]) && Digits(l[3]) {
      assert LooksLikeIp(host);
      AddressOfLabels(host);
    }
    if b, c, d :| Address(host, "127", b, c, d) {
      FourLabels(host, "127", b, c, d);
    }
  }

  predicate DomainMatch(host: string, domain: string) {
    host == domain || (EndsWith(host, "." + domain) && !LooksLikeIp(host))
  }

  predicate PublicSuffix(psl: Suffixes, domain: string) {
    '.' in domain && psl.listed(domain)
  }

  /** RFC 6265 section 5.1.3, in its own words: the same string, or a suffix that the host continues with a dot,
      and the host is not an address. */
  predicate RfcDomainMatch(host: string, domain: string) {
    host == domain
    || (!LooksLikeIp(host) && |domain| < |host|
        && host[|host| - |domain|..] == domain && host[|host| - |domain| - 1] == '.')
  }

  lemma DomainMatchIsRfc(host: string, domain: string)
    ensures DomainMatch(host, domain) <==> RfcDomainMatch(host, domain)
  {
    var n := |host| - |domain|;
    if 1 <= n {
      assert host[n - 1..] == [host[n - 1]] + host[n..];
      assert ("." + domain)[0] == '.' && ("." + domain)[1..] == domain;
    }
  }

  /** A domain that scopes a domain of the host scopes the host. */
  lemma DomainMatchIsTransitive(host: string, mid: string, domain: string)
    requires DomainMatch(host, mid) && DomainMatch(mid, domain)
    ensures DomainMatch(host, domain)
  {
    if host != mid && mid != domain {
      var d := "." + domain;
      var m := "." + mid;
      assert mid[|mid| - |d|..] == m[|m| - |d|..];
      assert host[|host| - |m|..][|m| - |d|..] == host[|host| - |d|..];
    }
  }

  // ----- paths -----

  /** The index of the last slash, if any. */
  function LastSlash(p: string): (r: int)
    ensures -1 <= r < |p|
    ensures r >= 0 ==> p[r] == '/'
    ensures forall i :: r < i < |p| ==> p[i] != '/'
    decreases |p|
  {
    if p == "" then -1
    else if p[|p| - 1] == '/' then |p| - 1
    else LastSlash(p[..|p| - 1])
  }

  /** RFC 6265 section 5.1.4 default-path. */
  function DefaultPath(p: string): string {
    if p == "" || p[0] != '/' then "/"
    else if LastSlash(p) <= 0 then "/" else p[..LastSlash(p)]
  }

  /** In the RFC's words: up to the right-most slash and without it, and the root when that is nothing. */
  lemma DefaultPathMeaning(dir: string, file: string)
    requires '/' !in file
    ensures DefaultPath(dir + "/" + file) == if dir != "" && dir[0] == '/' then dir else "/"
    ensures (file == "" || file[0] != '/') && DefaultPath(file) == "/"
  {
    var p := dir + "/" + file;
    assert p[|dir|] == '/';
    assert forall k :: |dir| < k < |p| ==> p[k] == file[k - |dir| - 1];
    assert LastSlash(p) == |dir|;
    assert p[..|dir|] == dir;
    hide LastSlash;
  }

  predicate PathMatch(request: string, path: string) {
    || path == "/" || request == path
    || (path <= request && (EndsWith(path, "/") || (|path| < |request| && request[|path|] == '/')))
  }

  /** RFC 6265 section 5.1.4 path-match, in its own words. */
  predicate RfcPathMatch(request: string, path: string) {
    || request == path
    || (path <= request && |path| > 0 && path[|path| - 1] == '/')
    || (path <= request && |path| < |request| && request[|path|] == '/')
  }

  lemma PathMatchIsRfc(request: string, path: string)
    requires |request| > 0 && request[0] == '/'
    ensures PathMatch(request, path) <==> RfcPathMatch(request, path)
  {
    if path == "/" {
      assert path <= request;
    }
    if |path| > 0 {
      assert path[|path| - 1..] == [path[|path| - 1]];
    }
  }

  /** A cookie set without a Path attribute goes back to the URL that set it, and to every sibling of it. */
  lemma DefaultPathComesBack(p: string, sibling: string)
    requires |p| > 0 && p[0] == '/'
    requires LastSlash(p) < |sibling| && sibling[..LastSlash(p) + 1] == p[..LastSlash(p) + 1]
    ensures PathMatch(sibling, DefaultPath(p))
  {
    var i := LastSlash(p);
    if i > 0 {
      assert sibling[..i] == sibling[..i + 1][..i] == p[..i + 1][..i] == p[..i];
      assert sibling[i] == sibling[..i + 1][i] == p[..i + 1][i] == '/';
    }
  }

  // ----- admission gates -----

  datatype Refusal =
    | Malformed | ControlCharacter | NoneWithoutSecure | SecureFromInsecure | OutOfScope
    | PrefixNeedsSecure | HostPrefix | Oversized | HttpOnlyKept

  datatype Verdict = Refuse(why: Refusal) | Retire(identity: Identity) | Keep(cookie: Cookie)

  const COOKIE_MAX_BYTES := 4096

  predicate Control(s: string) {
    exists ch <- s :: ch < ' ' || ch == '\U{7f}'
  }

  function EffectiveDomain(a: Attributes, u: Url): string {
    if a.domain == "" then u.host else a.domain
  }

  function EffectivePath(a: Attributes, u: Url): string {
    if a.path == "" then DefaultPath(u.path) else a.path
  }

  predicate OutsideHost(psl: Suffixes, a: Attributes, u: Url) {
    var d := EffectiveDomain(a, u);
    !a.hostOnly && (PublicSuffix(psl, d) || !DomainMatch(u.host, d) || ('.' !in d && d != u.host))
  }

  predicate Deletes(a: Attributes, now: int) {
    if a.maxAge.Some? then a.maxAge.value <= 0 else a.hasExpires && a.expires <= now
  }

  function Expiry(a: Attributes, now: int): int {
    if a.maxAge.Some? then now + a.maxAge.value * 1000 else a.expires
  }

  const SECURE_PREFIX := "__Secure-"
  const HOST_PREFIX := "__Host-"

  /** The gates, in the order they run. A kept cookie carries `now` as its creation time, which a
      replacement overrides later. */
  function Judge(psl: Suffixes, a: Attributes, url: Option<Url>, now: int): Verdict {
    if a.name == "" || url.None? then Refuse(Malformed)
    else if Control(a.name) || Control(a.value) then Refuse(ControlCharacter)
    else if a.sameSite == CrossSite && !a.secure then Refuse(NoneWithoutSecure)
    else if a.secure && !SecureOrigin(url.value) then Refuse(SecureFromInsecure)
    else
      var u := url.value;
      var domain := EffectiveDomain(a, u);
      var path := EffectivePath(a, u);
      if OutsideHost(psl, a, u) then Refuse(OutOfScope)
      else if (SECURE_PREFIX <= a.name || HOST_PREFIX <= a.name) && !a.secure then Refuse(PrefixNeedsSecure)
      else if HOST_PREFIX <= a.name && (!a.hostOnly || path != "/") then Refuse(HostPrefix)
      else if !Deletes(a, now) && Utf8Length(a.name) + Utf8Length(a.value) > COOKIE_MAX_BYTES then Refuse(Oversized)
      else if Deletes(a, now) then Retire(Identity(a.name, domain, a.hostOnly, path))
      else Keep(Cookie(a.name, a.value, domain, a.hostOnly, path, a.secure, a.httpOnly, a.sameSite,
                       Expiry(a, now), now))
  }

  predicate Live(c: Cookie, now: int) {
    c.expires == 0 || c.expires > now
  }

  /** The host is one the cookie's Domain scopes. */
  predicate Covers(host: string, c: Cookie) {
    if c.hostOnly then host == c.domain else DomainMatch(host, c.domain)
  }

  /** The cookie the attributes spell out for this response, refused or not. */
  function Spelled(a: Attributes, u: Url, now: int): Cookie {
    Cookie(a.name, a.value, EffectiveDomain(a, u), a.hostOnly, EffectivePath(a, u), a.secure, a.httpOnly,
           a.sameSite, Expiry(a, now), now)
  }

  /** RFC 6265 section 5.3 step 3: Max-Age counts seconds and alone decides when it is there, then Expires, and a
      record with neither has no end. Times are milliseconds. */
  predicate LastsTo(a: Attributes, stored: int, t: int) {
    match a.maxAge
    case Some(seconds) => t < stored + 1000 * seconds
    case None => a.hasExpires ==> t < a.expires
  }

  /** What holds of every cookie, and every deletion, that passes the gates, wherever it came from. */
  ghost predicate Permitted(psl: Suffixes, u: Url, c: Cookie) {
    && c.name != "" && (forall ch <- c.name + c.value :: ' ' <= ch && ch != '\U{7f}')
    && (c.hostOnly ==> c.domain == u.host)
    && (!c.hostOnly ==> RfcDomainMatch(u.host, c.domain))
    && (!c.hostOnly ==> if '.' in c.domain then !psl.listed(c.domain) else c.domain == u.host)
    && (c.sameSite == CrossSite ==> c.secure)
    && (c.secure ==> u.secure || OwnMachine(u.host))
    && ("__Secure-" <= c.name || "__Host-" <= c.name ==> c.secure)
    && ("__Host-" <= c.name ==> c.hostOnly && c.path == "/")
  }

  predicate Gates(psl: Suffixes, a: Attributes, u: Url) {
    && a.name != "" && !Control(a.name) && !Control(a.value)
    && (a.sameSite == CrossSite ==> a.secure) && (a.secure ==> SecureOrigin(u)) && !OutsideHost(psl, a, u)
    && (SECURE_PREFIX <= a.name || HOST_PREFIX <= a.name ==> a.secure)
    && (HOST_PREFIX <= a.name ==> a.hostOnly && EffectivePath(a, u) == "/")
  }

  lemma GatesPermit(psl: Suffixes, a: Attributes, u: Url, now: int)
    requires WellRead(a)
    ensures Gates(psl, a, u) <==> Permitted(psl, u, Spelled(a, u, now))
  {
    LoopbackMeaning(u.host);
    DomainMatchIsRfc(u.host, EffectiveDomain(a, u));
    ControlFree(a.name, a.value);
    hide Control, LooksLikeIp, Loopback, OwnMachine, DefaultPath, DomainMatch, RfcDomainMatch;
  }

  lemma ControlFree(name: string, value: string)
    ensures !Control(name) && !Control(value) <==> forall ch <- name + value :: ' ' <= ch && ch != '\U{7f}'
  {
    if !Control(name) && !Control(value) {
      assert forall ch <- name + value :: ch in name || ch in value;
    }
    if forall ch <- name + value :: ' ' <= ch && ch != '\U{7f}' {
      assert forall ch :: ch in name || ch in value ==> ch in name + value;
    }
  }

  lemma JudgedByGates(psl: Suffixes, a: Attributes, u: Url, now: int)
    ensures var v := Judge(psl, a, Some(u), now);
      && (v.Retire? <==> Gates(psl, a, u) && Deletes(a, now))
      && (v.Keep? <==> Gates(psl, a, u) && !Deletes(a, now) && Utf8Length(a.name) + Utf8Length(a.value) <= COOKIE_MAX_BYTES)
      && (v.Retire? ==> v.identity == IdentityOf(Spelled(a, u, now)))
      && (v.Keep? ==> v.cookie == Spelled(a, u, now))
  {
    hide Control, Loopback, OutsideHost, Utf8Length, DefaultPath, Deletes;
  }

  /** A stored cookie is live as long as the response said, and a deletion is one that is over at once. */
  lemma SpelledLasts(a: Attributes, u: Url, now: int, t: int)
    requires WellRead(a) && now > 0
    ensures Deletes(a, now) <==> !LastsTo(a, now, now)
    ensures !Deletes(a, now) ==> (Live(Spelled(a, u, now), t) <==> LastsTo(a, now, t))
  {
    hide DefaultPath;
  }

  /** The order of the gates hides nothing: a record is stored if and only if what it spells is permitted, fits
      4096 bytes and is not over at once, and it retires an identity if and only if what it spells is permitted
      and over at once. What is stored is exactly what is spelled, and is live exactly as long as the record said. */
  lemma KeepsTheAdmissible(psl: Suffixes, a: Attributes, u: Url, now: int)
    requires WellRead(a) && now > 0
    ensures var v := Judge(psl, a, Some(u), now); var c := Spelled(a, u, now);
      && (v.Keep? <==> Permitted(psl, u, c) && LastsTo(a, now, now) && Utf8Length(c.name) + Utf8Length(c.value) <= 4096)
      && (v.Retire? <==> Permitted(psl, u, c) && !LastsTo(a, now, now))
      && (v.Keep? ==> v.cookie == c && forall t: int :: Live(c, t) <==> LastsTo(a, now, t))
  {
    JudgedByGates(psl, a, u, now);
    GatesPermit(psl, a, u, now);
    forall t: int ensures !Deletes(a, now) ==> (Live(Spelled(a, u, now), t) <==> LastsTo(a, now, t)) {
      SpelledLasts(a, u, now, t);
    }
    SpelledLasts(a, u, now, now);
    hide Judge, Gates, Permitted, Utf8Length, Spelled, Deletes, LastsTo, Live;
    assert Spelled(a, u, now).name == a.name && Spelled(a, u, now).value == a.value by {
      SpelledFields(a, u, now);
    }
  }

  /** What is stored carries the response's own fields: the Domain and the Path that were given, or the host and the
      directory of the request. */
  lemma SpelledFields(a: Attributes, u: Url, now: int)
    ensures var c := Spelled(a, u, now);
      && c.name == a.name && c.value == a.value && c.hostOnly == a.hostOnly && c.created == now
      && c.secure == a.secure && c.httpOnly == a.httpOnly && c.sameSite == a.sameSite
      && c.domain == (if a.domain == "" then u.host else a.domain)
      && (a.path != "" ==> c.path == a.path)
      && (a.path == "" ==>
           forall dir: string, file: string :: '/' !in file && u.path == dir + "/" + file && (dir == "" || dir[0] == '/') ==>
             c.path == if dir == "" then "/" else dir)
  {
    if a.path == "" {
      forall dir: string, file: string | '/' !in file && u.path == dir + "/" + file && (dir == "" || dir[0] == '/')
        ensures DefaultPath(u.path) == if dir == "" then "/" else dir
      {
        DefaultPathMeaning(dir, file);
      }
    }
    hide DefaultPath;
  }

  /** What is refused is refused for the reason that is given. */
  lemma RefusedForCause(psl: Suffixes, a: Attributes, url: Option<Url>, now: int)
    requires WellRead(a) && now > 0 && Judge(psl, a, url, now).Refuse?
    ensures match Judge(psl, a, url, now).why
      case Malformed => a.name == "" || url.None?
      case ControlCharacter => exists ch <- a.name + a.value :: ch < ' ' || ch == '\U{7f}'
      case NoneWithoutSecure => a.sameSite == CrossSite && !a.secure
      case SecureFromInsecure => a.secure && url.Some? && !url.value.secure && !OwnMachine(url.value.host)
      case OutOfScope => !a.hostOnly && url.Some? && var d := Spelled(a, url.value, now).domain;
        !RfcDomainMatch(url.value.host, d) || if '.' in d then psl.listed(d) else d != url.value.host
      case PrefixNeedsSecure => !a.secure && ("__Secure-" <= a.name || "__Host-" <= a.name)
      case HostPrefix => "__Host-" <= a.name && url.Some? && (!a.hostOnly || Spelled(a, url.value, now).path != "/")
      case Oversized => Utf8Length(a.name) + Utf8Length(a.value) > 4096 && LastsTo(a, now, now)
      case HttpOnlyKept => false
  {
    ControlFree(a.name, a.value);
    if url.Some? {
      LoopbackMeaning(url.value.host);
      GatesPermit(psl, a, url.value, now);
      SpelledLasts(a, url.value, now, now);
      DomainMatchIsRfc(url.value.host, EffectiveDomain(a, url.value));
    }
    hide Control, LooksLikeIp, Loopback, OwnMachine, DefaultPath, DomainMatch, RfcDomainMatch, Utf8Length, LastsTo, Deletes;
  }

  /** A deletion passes every gate but the size gate. */
  lemma RetiresTheNamed(psl: Suffixes, a: Attributes, u: Url, now: int)
    requires WellRead(a) && now > 0
    requires Judge(psl, a, Some(u), now).Retire?
    ensures !LastsTo(a, now, now) && Judge(psl, a, Some(u), now).identity == IdentityOf(Spelled(a, u, now))
    ensures Permitted(psl, u, Spelled(a, u, now)) && Covers(u.host, Spelled(a, u, now))
  {
    JudgedByGates(psl, a, u, now);
    GatesPermit(psl, a, u, now);
    SpelledLasts(a, u, now, now);
    DomainMatchIsRfc(u.host, EffectiveDomain(a, u));
    hide Judge, Gates, DomainMatch, RfcDomainMatch, DefaultPath, Deletes, LastsTo, OwnMachine;
  }

  // ----- attachment -----

  datatype Policy = Off | Approx

  /** The requesting page as the worker knows it: its URL when it parses, and whether this is a top-level
      navigation. */
  datatype Context = Context(initiator: Option<Url>, navigation: bool)

  function SiteOf(psl: Suffixes, host: string): string {
    if LooksLikeIp(host) || '.' !in host then host else psl.registrable(host)
  }

  predicate SameSiteAllows(psl: Suffixes, policy: Policy, c: Cookie, u: Url, ctx: Context) {
    var effective := if c.sameSite == Unset then Lax else c.sameSite;
    if policy != Approx then true
    else if effective == CrossSite then true
    else if ctx.initiator.None? then true
    else if u.secure == ctx.initiator.value.secure
            && SiteOf(psl, u.host) == SiteOf(psl, ctx.initiator.value.host) then true
    else effective == Lax && ctx.navigation
  }

  predicate Attaches(psl: Suffixes, policy: Policy, c: Cookie, u: Url, ctx: Context) {
    && (if c.hostOnly then u.host == c.domain else DomainMatch(u.host, c.domain))
    && (!c.secure || u.secure)
    && PathMatch(u.path, c.path)
    && SameSiteAllows(psl, policy, c, u, ctx)
  }

  /** The site a host belongs to: its registrable domain, or the host itself when it is an address or has one label. */
  ghost predicate InSite(psl: Suffixes, host: string, site: string) {
    if (exists a, b, c, d :: Address(host, a, b, c, d)) || '.' !in host then site == host else site == psl.registrable(host)
  }

  /** The request comes from a page of another scheme or of another site. */
  ghost predicate FromElsewhere(psl: Suffixes, u: Url, ctx: Context) {
    ctx.initiator.Some? && var page := ctx.initiator.value;
      page.secure != u.secure || forall site: string :: InSite(psl, u.host, site) ==> !InSite(psl, page.host, site)
  }

  /** RFC 6265 section 5.4 step 1, and for the policy that applies it the SameSite rule of its revision: the host or
      the Domain, the path, Secure to https only, and from elsewhere only what is declared for that, or on a
      navigation what is not strict. */
  ghost predicate RfcSends(psl: Suffixes, policy: Policy, c: Cookie, u: Url, ctx: Context) {
    && (if c.hostOnly then u.host == c.domain else RfcDomainMatch(u.host, c.domain))
    && RfcPathMatch(u.path, c.path)
    && (c.secure ==> u.secure)
    && (policy == Approx && FromElsewhere(psl, u, ctx) ==>
         c.sameSite == CrossSite || (ctx.navigation && c.sameSite != Strict))
  }

  lemma InOneSite(psl: Suffixes, host: string)
    ensures forall site: string :: InSite(psl, host, site) <==> site == SiteOf(psl, host)
  {
    LooksLikeIpMeaning(host);
    hide LooksLikeIp, Address;
  }

  lemma FromElsewhereMeaning(psl: Suffixes, u: Url, ctx: Context)
    ensures FromElsewhere(psl, u, ctx) <==>
      ctx.initiator.Some? && var page := ctx.initiator.value;
        !(u.secure == page.secure && SiteOf(psl, u.host) == SiteOf(psl, page.host))
  {
    InOneSite(psl, u.host);
    if ctx.initiator.Some? {
      InOneSite(psl, ctx.initiator.value.host);
    }
    hide InSite, SiteOf;
    assert InSite(psl, u.host, SiteOf(psl, u.host));
  }

  /** A cookie attaches exactly when the RFC sends it. */
  lemma AttachesIsRfc(psl: Suffixes, policy: Policy, c: Cookie, u: Url, ctx: Context)
    requires u.path != "" && u.path[0] == '/'
    ensures Attaches(psl, policy, c, u, ctx) <==> RfcSends(psl, policy, c, u, ctx)
  {
    DomainMatchIsRfc(u.host, c.domain);
    PathMatchIsRfc(u.path, c.path);
    FromElsewhereMeaning(psl, u, ctx);
    hide DomainMatch, RfcDomainMatch, PathMatch, RfcPathMatch, FromElsewhere, SiteOf;
  }
}
