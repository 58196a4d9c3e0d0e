/** The cookie jar of a session (src/session/cookie-jar.js), after RFC 6265. A Set-Cookie line comes in
    split into its name, its value and its attributes; times are milliseconds. */
module CookieRules {
  import opened Wrappers

  function LowerChar(c: char): char {
    if 'A' <= c <= 'Z' then (c as int - 'A' as int + 'a' as int) as char else c
  }

  function Lower(s: string): (r: string)
    ensures |r| == |s|
  {
    seq(|s|, i requires 0 <= i < |s| => LowerChar(s[i]))
  }

  function NormalizeDomain(hostname: string): string {
    var lower := Lower(hostname);
    if lower != [] && lower[0] == '.' then lower[1..] else lower
  }

  /** One leading dot goes, and the letter case. */
  lemma NormalizingDropsOneDot(hostname: string)
    ensures NormalizeDomain(hostname) == Lower(if hostname != "" && hostname[0] == '.' then hostname[1..] else hostname)
  {
    if hostname != "" {
      assert Lower(hostname)[0] == LowerChar(hostname[0]);
      assert Lower(hostname)[1..] == Lower(hostname[1..]);
    }
  }

  predicate StartsWith(s: string, prefix: string) {
    prefix <= s
  }

  predicate EndsWith(s: string, suffix: string) {
    |suffix| <= |s| && s[|s| - |suffix|..] == suffix
  }

  predicate DomainMatches(hostname: string, domain: string) {
    Lower(hostname) == Lower(domain) || EndsWith(Lower(hostname), "." + Lower(domain))
  }

  predicate PathMatches(requestPath: string, cookiePath: string) {
    || requestPath == cookiePath
    || (StartsWith(requestPath, cookiePath)
        && (EndsWith(cookiePath, "/")
            || (|cookiePath| < |requestPath| && requestPath[|cookiePath|] == '/')))
  }

  function LastSlash(pathname: string): (r: int)
    ensures -1 <= r < |pathname|
    ensures r >= 0 ==> pathname[r] == '/'
    ensures forall i :: r < i < |pathname| ==> pathname[i] != '/'
  {
    if pathname == "" then -1
    else if pathname[|pathname| - 1] == '/' then |pathname| - 1
    else LastSlash(pathname[..|pathname| - 1])
  }

  function DefaultCookiePath(pathname: string): string {
    if !StartsWith(pathname, "/") || LastSlash(pathname) <= 0 then "/"
    else pathname[..LastSlash(pathname)]
  }

  lemma CountedAround(before: string, after: string)
    requires '/' !in after
    ensures multiset(before + "/" + after)['/'] == multiset(before)['/'] + 1
  {
  }

  /** Two slashes, in a path that begins with one, put the last one past the start. */
  lemma SecondSlash(pathname: string)
    requires StartsWith(pathname, "/")
    ensures LastSlash(pathname) > 0 <==> multiset(pathname)['/'] >= 2
  {
    var last := LastSlash(pathname);
    var before, after := pathname[..last], pathname[last + 1..];
    assert pathname == before + "/" + after;
    CountedAround(before, after);
    if last > 0 {
      assert before[0] == '/' && '/' in multiset(before);
    }
  }

  /** Section 5.1.4 of RFC 6265: up to, but not including, the right-most slash, or "/" when there is no
      more than one slash or the path does not begin with one. */
  lemma DefaultPathIsTheDirectory(pathname: string)
    ensures if StartsWith(pathname, "/") && multiset(pathname)['/'] >= 2 then
              exists rest :: pathname == DefaultCookiePath(pathname) + "/" + rest && '/' !in rest
            else
              DefaultCookiePath(pathname) == "/"
  {
    if StartsWith(pathname, "/") {
      SecondSlash(pathname);
      var last := LastSlash(pathname);
      if last > 0 {
        var rest := pathname[last + 1..];
        assert pathname == DefaultCookiePath(pathname) + "/" + rest && '/' !in rest;
      }
    }
  }

  /** A cookie without a Path attribute comes back on the request that set it. */
  lemma DefaultPathMatchesItsRequest(pathname: string)
    requires StartsWith(pathname, "/")
    ensures PathMatches(pathname, DefaultCookiePath(pathname))
  {
    assert EndsWith("/", "/");
  }

  /** Path matching is inherited by deeper paths. */
  lemma PathMatchingIsTransitive(a: string, b: string, c: string)
    requires PathMatches(a, b) && PathMatches(b, c)
    ensures PathMatches(a, c)
  {
    if a != b && b != c {
      assert c <= a;
      if !EndsWith(c, "/") {
        assert a[|c|] == b[|c|];
      }
    }
  }

  /** Matching is by whole path segments: what follows the cookie path is nothing, or begins a new
      segment (section 5.1.4 of RFC 6265). */
  lemma PathMatchesWholeSegments(requestPath: string, cookiePath: string)
    ensures PathMatches(requestPath, cookiePath) <==>
            exists rest :: requestPath == cookiePath + rest
                           && (rest == "" || rest[0] == '/' || (cookiePath != "" && cookiePath[|cookiePath| - 1] == '/'))
  {
    if StartsWith(requestPath, cookiePath) {
      var rest := requestPath[|cookiePath|..];
      assert requestPath == cookiePath + rest;
      assert forall other :: requestPath == cookiePath + other ==> other == requestPath[|cookiePath|..];
    } else {
      assert forall other :: requestPath == cookiePath + other ==> StartsWith(requestPath, cookiePath);
    }
  }

  datatype Cookie = Cookie(
    name: string,
    value: string,
    domain: string,
    hostOnly: bool,
    path: string,
    secure: bool,
    httpOnly: bool,
    sameSite: Option<string>,
    expiresAt: Option<int>)

  datatype Attribute =
    | Domain(value: string)
    | Path(value: string)
    | Secure
    | HttpOnly
    | SameSite(value: string)
    | MaxAge(seconds: Option<int>)
    | Expires(at: Option<int>)
    | Unknown

  datatype Request = Request(https: bool, hostname: string, pathname: string)

  predicate IsExpired(cookie: Cookie, now: int) {
    cookie.expiresAt.Some? && cookie.expiresAt.value <= now
  }

  /** The cookie may be sent with the request. */
  predicate Applies(cookie: Cookie, request: Request) {
    && (cookie.secure ==> request.https)
    && (if cookie.hostOnly then Lower(request.hostname) == cookie.domain
        else DomainMatches(request.hostname, cookie.domain))
    && PathMatches(if request.pathname == "" then "/" else request.pathname, cookie.path)
  }

  // -------------------------------------------------------------------------------------------
  // What the attributes mean together
  // -------------------------------------------------------------------------------------------

  /** The last Max-Age that is a number. */
  function LastMaxAge(attributes: seq<Attribute>): Option<int> {
    if attributes == [] then None
    else
      var last := attributes[|attributes| - 1];
      if last.MaxAge? && last.seconds.Some? then last.seconds else LastMaxAge(attributes[..|attributes| - 1])
  }

  /** The first Expires that is a date. */
  function FirstExpires(attributes: seq<Attribute>): Option<int> {
    if attributes == [] then None
    else
      var earlier := FirstExpires(attributes[..|attributes| - 1]);
      var last := attributes[|attributes| - 1];
      if earlier.Some? then earlier else if last.Expires? then last.at else None
  }

  /** A valid Max-Age wins over every Expires, in whatever order they come. */
  function ExpiryOf(attributes: seq<Attribute>, now: int): Option<int> {
    match LastMaxAge(attributes)
    case Some(seconds) => Some(now + seconds * 1000)
    case None => FirstExpires(attributes)
  }

  /** The last Path, with a relative one read as the root. */
  function PathOf(attributes: seq<Attribute>, pathname: string): string {
    if attributes == [] then DefaultCookiePath(pathname)
    else
      match attributes[|attributes| - 1]
      case Path(value) => if StartsWith(value, "/") then value else "/"
      case _ => PathOf(attributes[..|attributes| - 1], pathname)
  }

  predicate NamesDomain(attribute: Attribute) {
    attribute.Domain? && attribute.value != ""
  }

  predicate NamesForeignDomain(attribute: Attribute, hostname: string) {
    NamesDomain(attribute) && !DomainMatches(hostname, NormalizeDomain(attribute.value))
  }

  /** The last Domain that is not empty. */
  function DomainOf(attributes: seq<Attribute>): Option<string> {
    if attributes == [] then None
    else if NamesDomain(attributes[|attributes| - 1]) then Some(NormalizeDomain(attributes[|attributes| - 1].value))
    else DomainOf(attributes[..|attributes| - 1])
  }

  /** The last SameSite, unless it is empty. */
  function SameSiteOf(attributes: seq<Attribute>): Option<string> {
    if attributes == [] then None
    else
      match attributes[|attributes| - 1]
      case SameSite(value) => if value == "" then None else Some(value)
      case _ => SameSiteOf(attributes[..|attributes| - 1])
  }

  /** What a cookie with these attributes is. */
  ghost predicate Means(cookie: Cookie, attributes: seq<Attribute>, request: Request, now: int) {
    && cookie.expiresAt == ExpiryOf(attributes, now)
    && cookie.path == PathOf(attributes, request.pathname)
    && cookie.hostOnly == DomainOf(attributes).None?
    && cookie.domain == DomainOf(attributes).Or(Some(NormalizeDomain(request.hostname))).value
    && cookie.secure == (Secure in attributes)
    && cookie.httpOnly == (HttpOnly in attributes)
    && cookie.sameSite == SameSiteOf(attributes)
  }

  /** The last of the attributes of a kind. */
  predicate IsLastOf(attributes: seq<Attribute>, i: nat, kind: Attribute -> bool) {
    && i < |attributes| && kind(attributes[i])
    && forall k :: i < k < |attributes| ==> !kind(attributes[k])
  }

  predicate IsFirstOf(attributes: seq<Attribute>, i: nat, kind: Attribute -> bool) {
    && i < |attributes| && kind(attributes[i])
    && forall k :: 0 <= k < i ==> !kind(attributes[k])
  }

  predicate NoneOf(attributes: seq<Attribute>, kind: Attribute -> bool) {
    forall k :: 0 <= k < |attributes| ==> !kind(attributes[k])
  }

  /** A Max-Age that is a number, and an Expires that is a date. */
  predicate IsAge(attribute: Attribute) {
    attribute.MaxAge? && attribute.seconds.Some?
  }

  predicate IsDate(attribute: Attribute) {
    attribute.Expires? && attribute.at.Some?
  }

  predicate IsPath(attribute: Attribute) {
    attribute.Path?
  }

  predicate IsSameSite(attribute: Attribute) {
    attribute.SameSite?
  }

  /** What the attributes say, attribute by attribute: the last numeric Max-Age, or else the first date of an
      Expires, or else no expiry; the last Path, or the directory of the request; the last Domain that is not empty, or
      the host alone; Secure, HttpOnly and SameSite where they are given. */
  ghost predicate Reads(cookie: Cookie, attributes: seq<Attribute>, request: Request, now: int) {
    ReadsExpiry(cookie, attributes, now) && ReadsScope(cookie, attributes, request) && ReadsFlags(cookie, attributes)
  }

  ghost predicate ReadsExpiry(cookie: Cookie, attributes: seq<Attribute>, now: int) {
    && (forall i: nat :: IsLastOf(attributes, i, IsAge) ==>
          cookie.expiresAt == Some(now + attributes[i].seconds.value * 1000))
    && (NoneOf(attributes, IsAge) ==>
          && (forall i: nat :: IsFirstOf(attributes, i, IsDate) ==> cookie.expiresAt == attributes[i].at)
          && (NoneOf(attributes, IsDate) ==> cookie.expiresAt.None?))
  }

  ghost predicate ReadsScope(cookie: Cookie, attributes: seq<Attribute>, request: Request) {
    && (forall i: nat :: IsLastOf(attributes, i, IsPath) ==>
          cookie.path == if attributes[i].value != "" && attributes[i].value[0] == '/' then attributes[i].value else "/")
    && (NoneOf(attributes, IsPath) ==> cookie.path == DefaultCookiePath(request.pathname))
    && (forall i: nat :: IsLastOf(attributes, i, NamesDomain) ==>
          !cookie.hostOnly && cookie.domain == NormalizeDomain(attributes[i].value))
    && (NoneOf(attributes, NamesDomain) ==> cookie.hostOnly && cookie.domain == NormalizeDomain(request.hostname))
  }

  ghost predicate ReadsFlags(cookie: Cookie, attributes: seq<Attribute>) {
    && (cookie.secure <==> Secure in attributes) && (cookie.httpOnly <==> HttpOnly in attributes)
    && (forall i: nat :: IsLastOf(attributes, i, IsSameSite) ==>
          cookie.sameSite == if attributes[i].value == "" then None else Some(attributes[i].value))
    && (NoneOf(attributes, IsSameSite) ==> cookie.sameSite.None?)
  }

  lemma {:induction false} LastAgeCounts(attributes: seq<Attribute>)
    ensures forall i: nat :: IsLastOf(attributes, i, IsAge) ==> LastMaxAge(attributes) == attributes[i].seconds
    ensures NoneOf(attributes, IsAge) ==> LastMaxAge(attributes).None?
  {
    if attributes != [] {
      var init := attributes[..|attributes| - 1];
      LastAgeCounts(init);
      forall i: nat | IsLastOf(attributes, i, IsAge) ensures LastMaxAge(attributes) == attributes[i].seconds {
        assert i < |init| ==> IsLastOf(init, i, IsAge);
      }
    }
  }

  lemma {:induction false} FirstDateCounts(attributes: seq<Attribute>)
    ensures forall i: nat :: IsFirstOf(attributes, i, IsDate) ==> FirstExpires(attributes) == attributes[i].at
    ensures NoneOf(attributes, IsDate) ==> FirstExpires(attributes).None?
  {
    if attributes != [] {
      var init := attributes[..|attributes| - 1];
      FirstDateCounts(init);
      forall i: nat | IsFirstOf(attributes, i, IsDate) ensures FirstExpires(attributes) == attributes[i].at {
        if i < |init| {
          assert IsFirstOf(init, i, IsDate);
        } else {
          assert NoneOf(init, IsDate);
        }
      }
    }
  }

  lemma {:induction false} LastPathCounts(attributes: seq<Attribute>, pathname: string)
    ensures forall i: nat :: IsLastOf(attributes, i, IsPath) ==>
              PathOf(attributes, pathname) ==
              if attributes[i].value != "" && attributes[i].value[0] == '/' then attributes[i].value else "/"
    ensures NoneOf(attributes, IsPath) ==> PathOf(attributes, pathname) == DefaultCookiePath(pathname)
  {
    if attributes != [] {
      var init := attributes[..|attributes| - 1];
      LastPathCounts(init, pathname);
      forall i: nat | IsLastOf(attributes, i, IsPath)
        ensures PathOf(attributes, pathname) ==
                if attributes[i].value != "" && attributes[i].value[0] == '/' then attributes[i].value else "/"
      {
        assert i < |init| ==> IsLastOf(init, i, IsPath);
      }
      if NoneOf(attributes, IsPath) {
        assert NoneOf(init, IsPath) && !attributes[|init|].Path?;
      }
    }
  }

  lemma {:induction false} LastDomainCounts(attributes: seq<Attribute>)
    ensures forall i: nat :: IsLastOf(attributes, i, NamesDomain) ==>
              DomainOf(attributes) == Some(NormalizeDomain(attributes[i].value))
    ensures NoneOf(attributes, NamesDomain) ==> DomainOf(attributes).None?
  {
    if attributes != [] {
      var init := attributes[..|attributes| - 1];
      LastDomainCounts(init);
      forall i: nat | IsLastOf(attributes, i, NamesDomain)
        ensures DomainOf(attributes) == Some(NormalizeDomain(attributes[i].value))
      {
        assert i < |init| ==> IsLastOf(init, i, NamesDomain);
      }
    }
  }

  lemma {:induction false} LastSameSiteCounts(attributes: seq<Attribute>)
    ensures forall i: nat :: IsLastOf(attributes, i, IsSameSite) ==>
              SameSiteOf(attributes) == if attributes[i].value == "" then None else Some(attributes[i].value)
    ensures NoneOf(attributes, IsSameSite) ==> SameSiteOf(attributes).None?
  {
    if attributes != [] {
      var init := attributes[..|attributes| - 1];
      LastSameSiteCounts(init);
      forall i: nat | IsLastOf(attributes, i, IsSameSite)
        ensures SameSiteOf(attributes) == if attributes[i].value == "" then None else Some(attributes[i].value)
      {
        assert i < |init| ==> IsLastOf(init, i, IsSameSite);
      }
      if NoneOf(attributes, IsSameSite) {
        assert NoneOf(init, IsSameSite) && !attributes[|init|].SameSite?;
      }
    }
  }

  /** What a cookie means is what its attributes say. */
  lemma MeaningIsRead(cookie: Cookie, attributes: seq<Attribute>, request: Request, now: int)
    requires Means(cookie, attributes, request, now)
    ensures Reads(cookie, attributes, request, now)
  {
    ExpiryIsRead(cookie, attributes, now);
    ScopeIsRead(cookie, attributes, request);
    LastSameSiteCounts(attributes);
  }

  lemma ExpiryIsRead(cookie: Cookie, attributes: seq<Attribute>, now: int)
    requires cookie.expiresAt == ExpiryOf(attributes, now)
    ensures ReadsExpiry(cookie, attributes, now)
  {
    LastAgeCounts(attributes);
    if NoneOf(attributes, IsAge) {
      DateIsRead(cookie, attributes);
    } else {
      forall i: nat | IsLastOf(attributes, i, IsAge)
        ensures cookie.expiresAt == Some(now + attributes[i].seconds.value * 1000)
      {
        assert LastMaxAge(attributes) == attributes[i].seconds;
      }
    }
  }

  lemma DateIsRead(cookie: Cookie, attributes: seq<Attribute>)
    requires cookie.expiresAt == FirstExpires(attributes)
    ensures forall i: nat :: IsFirstOf(attributes, i, IsDate) ==> cookie.expiresAt == attributes[i].at
    ensures NoneOf(attributes, IsDate) ==> cookie.expiresAt.None?
  {
    FirstDateCounts(attributes);
  }

  lemma ScopeIsRead(cookie: Cookie, attributes: seq<Attribute>, request: Request)
    requires cookie.path == PathOf(attributes, request.pathname)
    requires cookie.hostOnly == DomainOf(attributes).None?
    requires cookie.domain == DomainOf(attributes).Or(Some(NormalizeDomain(request.hostname))).value
    ensures ReadsScope(cookie, attributes, request)
  {
    LastPathCounts(attributes, request.pathname);
    LastDomainCounts(attributes);
  }

  /** A host is covered by the domain itself and by its subdomains, letter case aside. */
  lemma DomainsMatchWholeLabels(hostname: string, domain: string)
    ensures DomainMatches(hostname, domain) <==>
            exists prefix :: Lower(hostname) == prefix + Lower(domain)
                             && (prefix == "" || prefix[|prefix| - 1] == '.')
  {
    var host, covered := Lower(hostname), Lower(domain);
    if EndsWith(host, "." + covered) {
      var prefix := host[..|host| - |covered|];
      assert host[|host| - |covered| - 1..] == "." + covered;
      assert host == prefix + covered && prefix[|prefix| - 1] == '.';
    } else if host == covered {
      assert host == "" + covered;
    }
    if prefix :| host == prefix + covered && (prefix == "" || prefix[|prefix| - 1] == '.') {
      if prefix != "" {
        assert host[|prefix| - 1..] == "." + covered;
      }
    }
  }

  /** Where a cookie may go: over https if it is secure; to its own host, or to any host its domain covers; and to its
      path and below, by whole segments. */
  lemma AppliesWhere(cookie: Cookie, request: Request)
    ensures Applies(cookie, request) <==>
            && (!cookie.secure || request.https)
            && (cookie.hostOnly ==> Lower(request.hostname) == cookie.domain)
            && (!cookie.hostOnly ==>
                  exists prefix :: Lower(request.hostname) == prefix + Lower(cookie.domain)
                                   && (prefix == "" || prefix[|prefix| - 1] == '.'))
            && var pathname := if request.pathname == "" then "/" else request.pathname;
               exists rest :: pathname == cookie.path + rest
                              && (|| rest == "" || rest[0] == '/'
                                  || (cookie.path != "" && cookie.path[|cookie.path| - 1] == '/'))
  {
    DomainsMatchWholeLabels(request.hostname, cookie.domain);
    PathMatchesWholeSegments(if request.pathname == "" then "/" else request.pathname, cookie.path);
  }

  /** One attribute of the switch. */
  function Amended(cookie: Cookie, attribute: Attribute, now: int): Cookie {
    match attribute
    case Domain(value) =>
      if value == "" then cookie else cookie.(domain := NormalizeDomain(value), hostOnly := false)
    case Path(value) => cookie.(path := if StartsWith(value, "/") then value else "/")
    case Secure => cookie.(secure := true)
    case HttpOnly => cookie.(httpOnly := true)
    case SameSite(value) => cookie.(sameSite := if value == "" then None else Some(value))
    case MaxAge(seconds) =>
      if seconds.Some? then cookie.(expiresAt := Some(now + seconds.value * 1000)) else cookie
    case Expires(at) => if cookie.expiresAt.None? then cookie.(expiresAt := at) else cookie
    case Unknown => cookie
  }

  lemma AmendedMeans(cookie: Cookie, attributes: seq<Attribute>, attribute: Attribute, request: Request, now: int)
    requires Means(cookie, attributes, request, now)
    ensures Means(Amended(cookie, attribute, now), attributes + [attribute], request, now)
  {
    assert (attributes + [attribute])[..|attributes|] == attributes;
  }

  lemma NextAttribute(cookie: Cookie, attributes: seq<Attribute>, i: nat, request: Request, now: int)
    requires i < |attributes| && Means(cookie, attributes[..i], request, now)
    ensures Means(Amended(cookie, attributes[i], now), attributes[..i + 1], request, now)
    ensures Amended(cookie, attributes[i], now).name == cookie.name
    ensures Amended(cookie, attributes[i], now).value == cookie.value
  {
    AmendedMeans(cookie, attributes[..i], attributes[i], request, now);
    assert attributes[..i + 1] == attributes[..i] + [attributes[i]];
  }

  function FreshCookie(name: string, value: string, request: Request): Cookie {
    Cookie(name, value, NormalizeDomain(request.hostname), true, DefaultCookiePath(request.pathname),
           false, false, None, None)
  }

  lemma FreshMeans(name: string, value: string, request: Request, now: int)
    ensures Means(FreshCookie(name, value, request), [], request, now)
  {
  }

  /** A cookie as the parser returns it: for a host without a bar, with an absolute path and a name. What
      splitting and trimming the header line exclude beyond that, as an equals sign in a name, is not asked. */
  predicate Receivable(cookie: Cookie) {
    '|' !in cookie.domain && StartsWith(cookie.path, "/") && cookie.name != ""
  }

  /** parseSetCookie, once the line is split into name, value and attributes: rejected exactly without a name,
      or when a Domain attribute does not cover the request host. */
  method ParseAttributes(name: string, value: string, attributes: seq<Attribute>, request: Request, now: int)
    returns (r: Option<Cookie>)
    ensures r.None? <==>
              name == "" || exists i :: 0 <= i < |attributes| && NamesForeignDomain(attributes[i], request.hostname)
    ensures r.Some? ==> r.value.name == name && r.value.value == value && Means(r.value, attributes, request, now)
    ensures r.Some? ==> Reads(r.value, attributes, request, now)
    ensures r.Some? && '|' !in request.hostname ==> Receivable(r.value)
  {
    if name == "" {
      return None;
    }
    var cookie := FreshCookie(name, value, request);
    FreshMeans(name, value, request, now);
    assert attributes[..0] == [];
    for i := 0 to |attributes|
      invariant forall k :: 0 <= k < i ==> !NamesForeignDomain(attributes[k], request.hostname)
      invariant cookie.name == name && cookie.value == value && Means(cookie, attributes[..i], request, now)
    {
      if NamesForeignDomain(attributes[i], request.hostname) {
        return None;
      }
      NextAttribute(cookie, attributes, i, request, now);
      cookie := Amended(cookie, attributes[i], now);
    }
    assert attributes[..|attributes|] == attributes;
    MeaningIsRead(cookie, attributes, request, now);
    if '|' !in request.hostname {
      AcceptedIsReceivable(cookie, attributes, request, now);
    }
    r := Some(cookie);
  }

  /** An accepted cookie is for a domain that covers the host it came from. */
  lemma {:induction false} AcceptedDomainsCoverTheHost(attributes: seq<Attribute>, hostname: string)
    requires forall i :: 0 <= i < |attributes| ==> !NamesForeignDomain(attributes[i], hostname)
    ensures DomainOf(attributes).Some? ==> DomainMatches(hostname, DomainOf(attributes).value)
  {
    if attributes != [] && !NamesDomain(attributes[|attributes| - 1]) {
      AcceptedDomainsCoverTheHost(attributes[..|attributes| - 1], hostname);
    }
  }

  lemma LowerMovesNoBar(s: string)
    ensures '|' in Lower(s) <==> '|' in s
  {
    if i :| 0 <= i < |s| && s[i] == '|' {
      assert Lower(s)[i] == '|';
    }
  }

  lemma CoveringDomainsAddNoBar(hostname: string, domain: string)
    requires DomainMatches(hostname, domain)
    ensures '|' in domain ==> '|' in hostname
  {
    LowerMovesNoBar(hostname);
    LowerMovesNoBar(domain);
    if i :| 0 <= i < |Lower(domain)| && Lower(domain)[i] == '|' {
      assert ("." + Lower(domain))[i + 1] == '|';
    }
  }

  /** The cookies of a host without a bar have a domain without a bar. */
  lemma AcceptedDomainsHaveNoBar(cookie: Cookie, attributes: seq<Attribute>, request: Request, now: int)
    requires Means(cookie, attributes, request, now) && '|' !in request.hostname
    requires forall i :: 0 <= i < |attributes| ==> !NamesForeignDomain(attributes[i], request.hostname)
    ensures '|' !in cookie.domain
  {
    LowerMovesNoBar(request.hostname);
    AcceptedDomainsCoverTheHost(attributes, request.hostname);
    if DomainOf(attributes).Some? {
      CoveringDomainsAddNoBar(request.hostname, DomainOf(attributes).value);
    }
  }

  lemma {:induction false} PathsAreAbsolute(attributes: seq<Attribute>, pathname: string)
    ensures StartsWith(PathOf(attributes, pathname), "/")
  {
    if attributes != [] && !attributes[|attributes| - 1].Path? {
      PathsAreAbsolute(attributes[..|attributes| - 1], pathname);
    }
  }

  /** What the parser accepts from a host without a bar is receivable. */
  lemma AcceptedIsReceivable(cookie: Cookie, attributes: seq<Attribute>, request: Request, now: int)
    requires Means(cookie, attributes, request, now) && '|' !in request.hostname && cookie.name != ""
    requires forall i :: 0 <= i < |attributes| ==> !NamesForeignDomain(attributes[i], request.hostname)
    ensures Receivable(cookie)
  {
    AcceptedDomainsHaveNoBar(cookie, attributes, request, now);
    PathsAreAbsolute(attributes, request.pathname);
  }
}

/** The jar itself, and its agreement with the history of what was set. */
module CookieJars {
  import opened Wrappers
  import opened CookieRules

  datatype Entry = Entry(key: string, cookie: Cookie)

  function MakeKey(cookie: Cookie): string {
    cookie.domain + "|" + cookie.path + "|" + cookie.name
  }

  /** Cookies that the same domain, path and name make one and the same (section 5.3 of RFC 6265). */
  predicate SameCookie(x: Cookie, y: Cookie) {
    x.domain == y.domain && x.path == y.path && x.name == y.name
  }

  /** Nothing before the name holds a bar. */
  predicate BarFree(cookie: Cookie) {
    '|' !in cookie.domain && '|' !in cookie.path
  }

  lemma FirstBarSplits(a: string, b: string, c: string, d: string)
    requires '|' !in a && '|' !in c
    ensures a + "|" + b == c + "|" + d <==> a == c && b == d
  {
    var x, y := a + "|" + b, c + "|" + d;
    assert x[|a|] == '|' && (forall i :: 0 <= i < |a| ==> x[i] == a[i]);
    assert y[|c|] == '|' && (forall i :: 0 <= i < |c| ==> y[i] == c[i]);
    assert x[..|a|] == a && x[|a| + 1..] == b;
    assert y[..|c|] == c && y[|c| + 1..] == d;
  }

  /** Without a bar before the names, two cookies share a key exactly when they are the same cookie. */
  lemma KeyNamesTheCookie(x: Cookie, y: Cookie)
    requires BarFree(x) && BarFree(y)
    ensures MakeKey(x) == MakeKey(y) <==> SameCookie(x, y)
  {
    FirstBarSplits(x.domain, x.path + "|" + x.name, y.domain, y.path + "|" + y.name);
    FirstBarSplits(x.path, x.name, y.path, y.name);
    KeyFromTheLeft(x);
    KeyFromTheLeft(y);
  }

  lemma KeyFromTheLeft(x: Cookie)
    ensures MakeKey(x) == x.domain + "|" + (x.path + "|" + x.name)
  {
  }

  /** What one key has two readings of: where the path ends and the name begins. */
  function PathAndName(x: Cookie): string {
    x.path + "|" + x.name
  }

  lemma SameDomainSameRest(x: Cookie, y: Cookie)
    requires '|' !in x.domain && '|' !in y.domain
    ensures MakeKey(x) == MakeKey(y) <==> x.domain == y.domain && PathAndName(x) == PathAndName(y)
  {
    FirstBarSplits(x.domain, PathAndName(x), y.domain, PathAndName(y));
    KeyFromTheLeft(x);
    KeyFromTheLeft(y);
  }

  /** A bar inside the path can be read as the one that ends it. */
  lemma BarInPathMoves(x: Cookie, i: nat)
    requires Receivable(x) && i < |x.path| && x.path[i] == '|'
    ensures exists y :: Receivable(y) && MakeKey(y) == MakeKey(x) && !SameCookie(x, y)
  {
    var y := x.(path := x.path[..i], name := x.path[i + 1..] + "|" + x.name);
    assert x.path == y.path + "|" + x.path[i + 1..];
    assert PathAndName(y) == PathAndName(x);
    SameDomainSameRest(x, y);
    assert Receivable(y) && MakeKey(y) == MakeKey(x) && |y.path| < |x.path|;
  }

  /** So can a bar inside the name, unless nothing of the name follows it. */
  lemma BarInNameMoves(x: Cookie, i: nat)
    requires Receivable(x) && i < |x.name| - 1 && x.name[i] == '|'
    ensures exists y :: Receivable(y) && MakeKey(y) == MakeKey(x) && !SameCookie(x, y)
  {
    var y := x.(path := x.path + "|" + x.name[..i], name := x.name[i + 1..]);
    assert x.name == x.name[..i] + "|" + y.name;
    assert PathAndName(y) == PathAndName(x);
    SameDomainSameRest(x, y);
    assert Receivable(y) && MakeKey(y) == MakeKey(x) && |y.path| > |x.path|;
  }

  /** Another reading of the key needs a bar in the path, or one in the name that does not end it. */
  lemma OtherReadingsNeedABar(x: Cookie, y: Cookie)
    requires Receivable(x) && Receivable(y) && PathAndName(y) == PathAndName(x) && |y.path| != |x.path|
    ensures '|' in x.path || '|' in x.name[..|x.name| - 1]
  {
    var s := PathAndName(x);
    assert s[|y.path|] == '|' && s[|x.path|] == '|';
    if |y.path| < |x.path| {
      assert x.path[|y.path|] == '|';
    } else {
      var i := |y.path| - |x.path| - 1;
      assert |x.name| - 1 - i == |y.name| > 0;
      assert x.name[..|x.name| - 1][i] == s[|y.path|];
    }
  }

  /** Among cookies that the parser returns, a key belongs to one exactly when there is no bar in its path, and
      none in its name but possibly the last character. */
  lemma KeyIsUnambiguous(x: Cookie)
    requires Receivable(x)
    ensures (forall y :: Receivable(y) && MakeKey(y) == MakeKey(x) ==> SameCookie(x, y))
            <==> '|' !in x.path && '|' !in x.name[..|x.name| - 1]
  {
    if i :| 0 <= i < |x.path| && x.path[i] == '|' {
      BarInPathMoves(x, i);
    } else if i :| 0 <= i < |x.name| - 1 && x.name[i] == '|' {
      BarInNameMoves(x, i);
    } else {
      forall y | Receivable(y) && MakeKey(y) == MakeKey(x) ensures SameCookie(x, y) {
        SameDomainSameRest(x, y);
        if |y.path| != |x.path| {
          OtherReadingsNeedABar(x, y);
        } else {
          SameLengthSameParts(x, y);
        }
      }
    }
  }

  lemma SameLengthSameParts(x: Cookie, y: Cookie)
    requires PathAndName(y) == PathAndName(x) && |y.path| == |x.path|
    ensures y.path == x.path && y.name == x.name
  {
    assert x.path == PathAndName(x)[..|x.path|] && y.path == PathAndName(y)[..|y.path|];
    assert x.name == PathAndName(x)[|x.path| + 1..] && y.name == PathAndName(y)[|y.path| + 1..];
  }

  /** On any request, two Set-Cookie lines with these names and paths are accepted and share a key. */
  method KeysCanCollide(value: string, request: Request, now: int) returns (x: Cookie, y: Cookie)
    ensures x.name == "n" && Means(x, [Path("/a|b")], request, now)
    ensures y.name == "b|n" && Means(y, [Path("/a")], request, now)
    ensures MakeKey(x) == MakeKey(y) && x.domain == y.domain && !SameCookie(x, y)
  {
    var first := ParseAttributes("n", value, [Path("/a|b")], request, now);
    var second := ParseAttributes("b|n", value, [Path("/a")], request, now);
    x, y := first.value, second.value;
    assert "/a|b" + "|" + "n" == "/a" + "|" + "b|n";
    KeyFromTheLeft(x);
    KeyFromTheLeft(y);
  }

  predicate DistinctKeys(entries: seq<Entry>) {
    forall i, k :: 0 <= i < k < |entries| ==> entries[i].key != entries[k].key
  }

  /** The cookie last set under a key, expired or not. */
  function LastSet(history: seq<Entry>, key: string): Option<Cookie> {
    if history == [] then None
    else if history[|history| - 1].key == key then Some(history[|history| - 1].cookie)
    else LastSet(history[..|history| - 1], key)
  }

  /** The cookie last set under a key, while it is not expired. */
  function Current(history: seq<Entry>, key: string, now: int): Option<Cookie> {
    match LastSet(history, key)
    case None => None
    case Some(cookie) => if IsExpired(cookie, now) then None else Some(cookie)
  }

  /** The cookie last set with this domain, path and name, whatever its key. */
  function LastLike(history: seq<Entry>, like: Cookie): Option<Cookie> {
    if history == [] then None
    else if SameCookie(history[|history| - 1].cookie, like) then Some(history[|history| - 1].cookie)
    else LastLike(history[..|history| - 1], like)
  }

  /** Everything set went in under its own key. */
  ghost predicate Keyed(history: seq<Entry>) {
    forall e :: e in history ==> e.key == MakeKey(e.cookie)
  }

  ghost predicate AllBarFree(history: seq<Entry>) {
    forall e :: e in history ==> BarFree(e.cookie)
  }

  lemma {:induction false} LastSetWasSet(history: seq<Entry>, key: string)
    ensures LastSet(history, key).Some? ==> Entry(key, LastSet(history, key).value) in history
  {
    if history != [] {
      LastSetWasSet(history[..|history| - 1], key);
    }
  }

  /** Without bars, the key finds what was last set with the same domain, path and name. */
  lemma {:induction false} LastSetIsLastLike(history: seq<Entry>, like: Cookie)
    requires Keyed(history) && AllBarFree(history) && BarFree(like)
    ensures LastSet(history, MakeKey(like)) == LastLike(history, like)
  {
    if history != [] {
      var last := history[|history| - 1];
      assert last in history;
      KeyNamesTheCookie(last.cookie, like);
      LastSetIsLastLike(history[..|history| - 1], like);
    }
  }

  lemma {:induction false} LastUnderTheKey(history: seq<Entry>, k: nat)
    requires k < |history| && forall m :: k < m < |history| ==> history[m].key != history[k].key
    ensures LastSet(history, history[k].key) == Some(history[k].cookie)
  {
    if k < |history| - 1 {
      LastUnderTheKey(history[..|history| - 1], k);
    }
  }

  lemma {:induction false} SomeLaterUnderTheKey(history: seq<Entry>, i: nat, k: nat)
    requires i < k < |history| && history[k].key == history[i].key
    ensures exists m :: i < m < |history| && LastSet(history, history[i].key) == Some(history[m].cookie)
  {
    if history[|history| - 1].key != history[i].key {
      var init := history[..|history| - 1];
      SomeLaterUnderTheKey(init, i, k);
      var m :| i < m < |init| && LastSet(init, init[i].key) == Some(init[m].cookie);
      assert history[m] == init[m];
    }
  }

  /** The last cookie of its domain, path and name is what its key finds, unless a later one of another
      path or name came in under the same key; then it is lost. */
  lemma LostToALaterCollision(history: seq<Entry>, i: nat)
    requires i < |history|
    requires forall k :: i < k < |history| ==> !SameCookie(history[k].cookie, history[i].cookie)
    ensures LastSet(history, history[i].key) == Some(history[i].cookie)
            <==> forall k :: i < k < |history| ==> history[k].key != history[i].key
  {
    if k :| i < k < |history| && history[k].key == history[i].key {
      SomeLaterUnderTheKey(history, i, k);
    } else {
      LastUnderTheKey(history, i);
    }
  }

  /** The jar holds only last-set cookies, and all of those that are not expired. */
  ghost predicate Agrees(entries: seq<Entry>, history: seq<Entry>, clock: int) {
    && DistinctKeys(entries)
    && (forall e :: e in entries ==> LastSet(history, e.key) == Some(e.cookie))
    && (forall key :: Current(history, key, clock).Some? ==>
          Entry(key, Current(history, key, clock).value) in entries)
  }

  lemma TimePasses(entries: seq<Entry>, history: seq<Entry>, clock: int, now: int)
    requires Agrees(entries, history, clock) && clock <= now
    ensures Agrees(entries, history, now)
  {
    forall key | Current(history, key, now).Some?
      ensures Entry(key, Current(history, key, now).value) in entries
    {
      assert Current(history, key, clock) == Current(history, key, now);
    }
  }

  /** Map.delete. */
  function Without(entries: seq<Entry>, key: string): seq<Entry> {
    if entries == [] then []
    else if entries[0].key == key then Without(entries[1..], key)
    else [entries[0]] + Without(entries[1..], key)
  }

  lemma {:induction false} OthersAreLeft(entries: seq<Entry>, key: string)
    ensures forall e :: e in Without(entries, key) <==> e in entries && e.key != key
  {
    if entries != [] {
      OthersAreLeft(entries[1..], key);
      assert forall e :: e in entries <==> e == entries[0] || e in entries[1..];
    }
  }

  lemma {:induction false} WithoutKeepsDistinct(entries: seq<Entry>, key: string)
    requires DistinctKeys(entries)
    ensures DistinctKeys(Without(entries, key))
  {
    if entries != [] {
      WithoutKeepsDistinct(entries[1..], key);
      OthersAreLeft(entries[1..], key);
      forall e | e in Without(entries[1..], key) ensures e.key != entries[0].key {
        var i :| 0 <= i < |entries[1..]| && entries[1..][i] == e;
        assert entries[i + 1] == e;
      }
    }
  }

  /** Map.set: a known key keeps its place, a new one goes to the end. */
  function WithEntry(entries: seq<Entry>, entry: Entry): seq<Entry> {
    if entries == [] then [entry]
    else if entries[0].key == entry.key then [entry] + Without(entries[1..], entry.key)
    else [entries[0]] + WithEntry(entries[1..], entry)
  }

  lemma {:induction false} OneIsSet(entries: seq<Entry>, entry: Entry)
    ensures forall e :: e in WithEntry(entries, entry) <==> e == entry || (e in entries && e.key != entry.key)
  {
    if entries != [] {
      OneIsSet(entries[1..], entry);
      OthersAreLeft(entries[1..], entry.key);
      assert forall e :: e in entries <==> e == entries[0] || e in entries[1..];
    }
  }

  lemma {:induction false} WithEntryKeepsDistinct(entries: seq<Entry>, entry: Entry)
    requires DistinctKeys(entries)
    ensures DistinctKeys(WithEntry(entries, entry))
  {
    if entries != [] {
      assert forall i :: 0 <= i < |entries[1..]| ==> entries[1..][i] == entries[i + 1];
      if entries[0].key == entry.key {
        WithoutKeepsDistinct(entries[1..], entry.key);
        OthersAreLeft(entries[1..], entry.key);
      } else {
        WithEntryKeepsDistinct(entries[1..], entry);
        OneIsSet(entries[1..], entry);
      }
    }
  }

  lemma {:induction false} NothingToRemove(entries: seq<Entry>, key: string)
    requires forall i :: 0 <= i < |entries| ==> entries[i].key != key
    ensures Without(entries, key) == entries
  {
    if entries != [] {
      NothingToRemove(entries[1..], key);
    }
  }

  lemma {:induction false} WithoutSplits(left: seq<Entry>, right: seq<Entry>, key: string)
    ensures Without(left + right, key) == Without(left, key) + Without(right, key)
  {
    if left == [] {
      assert left + right == right;
    } else {
      WithoutSplits(left[1..], right, key);
      assert (left + right)[1..] == left[1..] + right;
    }
  }

  /** Removing a key leaves the others in order. */
  lemma WithoutOne(entries: seq<Entry>, key: string, i: nat)
    requires DistinctKeys(entries) && i < |entries| && entries[i].key == key
    ensures Without(entries, key) == entries[..i] + entries[i + 1..]
  {
    var left, right := entries[..i], entries[i + 1..];
    assert entries == left + ([entries[i]] + right);
    WithoutSplits(left, [entries[i]] + right, key);
    NothingToRemove(left, key);
    NothingToRemove(right, key);
    assert ([entries[i]] + right)[1..] == right;
  }

  /** A known key keeps its place. */
  lemma {:induction false} WithEntryInPlace(entries: seq<Entry>, entry: Entry, i: nat)
    requires DistinctKeys(entries) && i < |entries| && entries[i].key == entry.key
    ensures WithEntry(entries, entry) == entries[i := entry]
  {
    if i == 0 {
      NothingToRemove(entries[1..], entry.key);
    } else {
      WithEntryInPlace(entries[1..], entry, i - 1);
      assert entries[0].key != entries[i].key;
      assert entries[i := entry] == [entries[0]] + entries[1..][i - 1 := entry];
    }
  }

  /** A new one goes to the end. */
  lemma {:induction false} WithEntryAtTheEnd(entries: seq<Entry>, entry: Entry)
    requires forall i :: 0 <= i < |entries| ==> entries[i].key != entry.key
    ensures WithEntry(entries, entry) == entries + [entry]
  {
    if entries != [] {
      WithEntryAtTheEnd(entries[1..], entry);
      assert entries + [entry] == [entries[0]] + (entries[1..] + [entry]);
    }
  }

  /** The entries that are not expired, in order. */
  function Unexpired(entries: seq<Entry>, now: int): seq<Entry> {
    if entries == [] then []
    else
      var last := entries[|entries| - 1];
      Unexpired(entries[..|entries| - 1], now) + if IsExpired(last.cookie, now) then [] else [last]
  }

  /** The entries that may go with a request, in order. */
  function Applicable(entries: seq<Entry>, request: Request): seq<Entry> {
    if entries == [] then []
    else
      var last := entries[|entries| - 1];
      Applicable(entries[..|entries| - 1], request) + if Applies(last.cookie, request) then [last] else []
  }

  lemma {:induction false} UnexpiredAreLeft(entries: seq<Entry>, now: int)
    ensures forall e :: e in Unexpired(entries, now) <==> e in entries && !IsExpired(e.cookie, now)
    ensures DistinctKeys(entries) ==> DistinctKeys(Unexpired(entries, now))
  {
    if entries != [] {
      var init, last := entries[..|entries| - 1], entries[|entries| - 1];
      UnexpiredAreLeft(init, now);
      assert forall e :: e in entries <==> e in init || e == last;
      if DistinctKeys(entries) {
        LastIsNew(entries);
      }
    }
  }

  lemma {:induction false} ApplicableAreSent(entries: seq<Entry>, request: Request)
    ensures forall e :: e in Applicable(entries, request) <==> e in entries && Applies(e.cookie, request)
    ensures DistinctKeys(entries) ==> DistinctKeys(Applicable(entries, request))
  {
    if entries != [] {
      var init, last := entries[..|entries| - 1], entries[|entries| - 1];
      ApplicableAreSent(init, request);
      assert forall e :: e in entries <==> e in init || e == last;
      if DistinctKeys(entries) {
        LastIsNew(entries);
      }
    }
  }

  lemma LastIsNew(entries: seq<Entry>)
    requires entries != [] && DistinctKeys(entries)
    ensures forall e :: e in entries[..|entries| - 1] ==> e.key != entries[|entries| - 1].key
  {
  }

  lemma OneMoreUnexpired(entries: seq<Entry>, i: nat, now: int)
    requires i < |entries|
    ensures Unexpired(entries[..i + 1], now) ==
            Unexpired(entries[..i], now) + if IsExpired(entries[i].cookie, now) then [] else [entries[i]]
  {
    assert entries[..i + 1][..i] == entries[..i];
  }

  lemma OneMoreApplicable(entries: seq<Entry>, i: nat, request: Request)
    requires i < |entries|
    ensures Applicable(entries[..i + 1], request) ==
            Applicable(entries[..i], request) + if Applies(entries[i].cookie, request) then [entries[i]] else []
  {
    assert entries[..i + 1][..i] == entries[..i];
  }

  // -------------------------------------------------------------------------------------------
  // Ordering by path length
  // -------------------------------------------------------------------------------------------

  function Insert(entry: Entry, sorted: seq<Entry>): (r: seq<Entry>)
    ensures multiset(r) == multiset(sorted) + multiset{entry}
  {
    if sorted == [] || |entry.cookie.path| >= |sorted[0].cookie.path| then [entry] + sorted
    else
      assert sorted == [sorted[0]] + sorted[1..];
      [sorted[0]] + Insert(entry, sorted[1..])
  }

  /** A stable sort, longest path first. */
  function SortByPathLength(entries: seq<Entry>): (r: seq<Entry>)
    ensures multiset(r) == multiset(entries)
  {
    if entries == [] then []
    else
      assert entries == [entries[0]] + entries[1..];
      Insert(entries[0], SortByPathLength(entries[1..]))
  }

  predicate LongestFirst(entries: seq<Entry>) {
    forall i, k :: 0 <= i < k < |entries| ==> |entries[i].cookie.path| >= |entries[k].cookie.path|
  }

  lemma {:induction false} InsertKeepsOrder(entry: Entry, sorted: seq<Entry>)
    requires LongestFirst(sorted)
    ensures LongestFirst(Insert(entry, sorted))
  {
    if sorted != [] && |entry.cookie.path| < |sorted[0].cookie.path| {
      var rest := Insert(entry, sorted[1..]);
      InsertKeepsOrder(entry, sorted[1..]);
      forall e | e in rest ensures |e.cookie.path| <= |sorted[0].cookie.path| {
        assert e in multiset(rest);
        assert e == entry || e in sorted[1..];
      }
    }
  }

  lemma {:induction false} SortOrders(entries: seq<Entry>)
    ensures LongestFirst(SortByPathLength(entries))
  {
    if entries != [] {
      SortOrders(entries[1..]);
      InsertKeepsOrder(entries[0], SortByPathLength(entries[1..]));
    }
  }

  /** The entries of one path length, in order. */
  function OfLength(entries: seq<Entry>, n: nat): seq<Entry> {
    if entries == [] then []
    else (if |entries[0].cookie.path| == n then [entries[0]] else []) + OfLength(entries[1..], n)
  }

  lemma {:induction false} InsertIsStable(entry: Entry, sorted: seq<Entry>, n: nat)
    ensures OfLength(Insert(entry, sorted), n) == OfLength([entry] + sorted, n)
  {
    if sorted != [] && |entry.cookie.path| < |sorted[0].cookie.path| {
      var first, rest := sorted[0], sorted[1..];
      InsertIsStable(entry, rest, n);
      FirstOfLength(first, Insert(entry, rest), n);
      FirstOfLength(entry, rest, n);
      FirstOfLength(entry, sorted, n);
      var mine, others := OfLength(rest, n), OfLength(sorted, n);
      if |entry.cookie.path| == n {
        assert others == mine;
      } else {
        assert OfLength([entry] + sorted, n) == others;
      }
    }
  }

  lemma FirstOfLength(entry: Entry, rest: seq<Entry>, n: nat)
    ensures OfLength([entry] + rest, n) == (if |entry.cookie.path| == n then [entry] else []) + OfLength(rest, n)
  {
    assert ([entry] + rest)[1..] == rest;
  }

  /** Cookies of equal path length keep the order in which they were first stored. */
  lemma {:induction false} SortIsStable(entries: seq<Entry>, n: nat)
    ensures OfLength(SortByPathLength(entries), n) == OfLength(entries, n)
  {
    if entries != [] {
      SortIsStable(entries[1..], n);
      InsertIsStable(entries[0], SortByPathLength(entries[1..]), n);
      assert ([entries[0]] + SortByPathLength(entries[1..]))[1..] == SortByPathLength(entries[1..]);
    }
  }

  lemma DistinctByMultiset(entries: seq<Entry>, sorted: seq<Entry>)
    requires DistinctKeys(entries) && multiset(sorted) == multiset(entries)
    ensures DistinctKeys(sorted)
    ensures forall e :: e in sorted <==> e in entries
  {
    assert forall e :: e in sorted <==> e in multiset(sorted);
    assert forall e :: e in entries <==> e in multiset(entries);
    forall i, k | 0 <= i < k < |sorted| ensures sorted[i].key != sorted[k].key {
      TwoPlacesCountTwice(sorted, i, k);
      AtMostOnce(entries, sorted[i]);
      SameKeySameEntry(entries, sorted[i], sorted[k]);
    }
  }

  lemma SameKeySameEntry(entries: seq<Entry>, e: Entry, f: Entry)
    requires DistinctKeys(entries) && e in entries && f in entries
    ensures e.key == f.key ==> e == f
  {
    var i :| 0 <= i < |entries| && entries[i] == e;
    var k :| 0 <= k < |entries| && entries[k] == f;
    assert i < k ==> entries[i].key != entries[k].key;
    assert k < i ==> entries[k].key != entries[i].key;
  }

  lemma TwoPlacesCountTwice(s: seq<Entry>, i: nat, k: nat)
    requires i < k < |s|
    ensures s[i] == s[k] ==> multiset(s)[s[i]] >= 2
  {
    assert s == s[..k] + [s[k]] + s[k + 1..];
    assert s[i] in s[..k];
  }

  lemma {:induction false} AtMostOnce(entries: seq<Entry>, e: Entry)
    requires DistinctKeys(entries)
    ensures multiset(entries)[e] <= 1
  {
    if entries != [] {
      assert entries == [entries[0]] + entries[1..];
      AtMostOnce(entries[1..], e);
      if e == entries[0] {
        assert e !in entries[1..];
      }
    }
  }

  // -------------------------------------------------------------------------------------------
  // The jar
  // -------------------------------------------------------------------------------------------

  class CookieJar {
    /** The Map of cookies, in insertion order. */
    var entries: seq<Entry>
    // every accepted Set-Cookie, and the latest time seen
    ghost var history: seq<Entry>
    ghost var clock: int

    ghost predicate Valid()
      reads this
    {
      Agrees(entries, history, clock) && Keyed(history)
    }

    constructor (ghost now: int)
      ensures Valid() && history == [] && clock == now
    {
      entries := [];
      history, clock := [], now;
    }

    /** removeExpired. */
    method RemoveExpired(now: int)
      requires Valid() && clock <= now
      modifies this
      ensures Valid() && history == old(history) && clock == now
      ensures forall e :: e in entries <==> e in old(entries) && !IsExpired(e.cookie, now)
      ensures forall e :: e in entries <==>
                e in old(entries) && (e.cookie.expiresAt.None? || e.cookie.expiresAt.value > now)
      ensures entries == Unexpired(old(entries), now)
    {
      var kept: seq<Entry> := [];
      for i := 0 to |entries|
        invariant entries == old(entries) && history == old(history) && clock == old(clock)
        invariant kept == Unexpired(entries[..i], now)
      {
        OneMoreUnexpired(entries, i, now);
        if !IsExpired(entries[i].cookie, now) {
          kept := kept + [entries[i]];
        }
      }
      UnexpiredAreLeft(entries, now);
      TimePasses(entries, history, clock, now);
      assert entries[..|entries|] == entries;
      entries := kept;
      clock := now;
    }

    /** The cookie takes the place of its key, or goes to the end; an expired one only removes. */
    method Store(entry: Entry, now: int)
      requires DistinctKeys(entries)
      modifies `entries
      ensures IsExpired(entry.cookie, now) ==>
                && entries == Without(old(entries), entry.key)
                && (forall i :: 0 <= i < |old(entries)| && old(entries)[i].key == entry.key ==>
                      entries == old(entries)[..i] + old(entries)[i + 1..])
                && ((forall i :: 0 <= i < |old(entries)| ==> old(entries)[i].key != entry.key) ==>
                      entries == old(entries))
      ensures !IsExpired(entry.cookie, now) ==>
                && entries == WithEntry(old(entries), entry)
                && (forall i :: 0 <= i < |old(entries)| && old(entries)[i].key == entry.key ==>
                      entries == old(entries)[i := entry])
                && ((forall i :: 0 <= i < |old(entries)| ==> old(entries)[i].key != entry.key) ==>
                      entries == old(entries) + [entry])
    {
      if IsExpired(entry.cookie, now) {
        forall i | 0 <= i < |entries| && entries[i].key == entry.key
          ensures Without(entries, entry.key) == entries[..i] + entries[i + 1..]
        {
          WithoutOne(entries, entry.key, i);
        }
        if forall i :: 0 <= i < |entries| ==> entries[i].key != entry.key {
          NothingToRemove(entries, entry.key);
        }
        entries := Without(entries, entry.key);
      } else {
        forall i | 0 <= i < |entries| && entries[i].key == entry.key
          ensures WithEntry(entries, entry) == entries[i := entry]
        {
          WithEntryInPlace(entries, entry, i);
        }
        if forall i :: 0 <= i < |entries| ==> entries[i].key != entry.key {
          WithEntryAtTheEnd(entries, entry);
        }
        entries := WithEntry(entries, entry);
      }
    }

    /** setCookie, from the attributes on. */
    method SetCookie(name: string, value: string, attributes: seq<Attribute>, request: Request, now: int)
      returns (accepted: bool)
      requires Valid() && clock <= now
      modifies this
      ensures Valid() && clock == now
      ensures accepted <==>
                name != "" && forall i :: 0 <= i < |attributes| ==> !NamesForeignDomain(attributes[i], request.hostname)
      ensures !accepted ==> history == old(history)
      ensures accepted ==>
                && |history| == |old(history)| + 1 && history[..|old(history)|] == old(history)
                && var e := history[|old(history)|];
                   && e.key == MakeKey(e.cookie) && e.cookie.name == name && e.cookie.value == value
                   && Means(e.cookie, attributes, request, now)
                   && Reads(e.cookie, attributes, request, now)
                   && ('|' !in request.hostname ==> Receivable(e.cookie))
                   && (IsExpired(e.cookie, now) ==> entries == Without(old(entries), e.key))
                   && (!IsExpired(e.cookie, now) ==>
                         && (forall i :: 0 <= i < |old(entries)| && old(entries)[i].key == e.key ==>
                               entries == old(entries)[i := e])
                         && ((forall i :: 0 <= i < |old(entries)| ==> old(entries)[i].key != e.key) ==>
                               entries == old(entries) + [e]))
    {
      TimePasses(entries, history, clock, now);
      clock := now;
      var cookie := ParseAttributes(name, value, attributes, request, now);
      if cookie.None? {
        return false;
      }
      var entry := Entry(MakeKey(cookie.value), cookie.value);
      SettingAgrees(entries, history, entry, now);
      history := history + [entry];
      Store(entry, now);
      accepted := true;
    }

    /** getCookieHeader: whatever was evicted lazily in between, exactly the last-set unexpired cookie of
        every key that applies to the request, in non-increasing path length, and those of one path length in the
        order of the jar. */
    method CookiesFor(request: Request, now: int) returns (sent: seq<Entry>)
      requires Valid() && clock <= now
      modifies this
      ensures Valid() && history == old(history) && clock == now
      ensures DistinctKeys(sent) && LongestFirst(sent)
      ensures forall n: nat ::
                OfLength(sent, n) == OfLength(Applicable(Unexpired(old(entries), now), request), n)
      ensures forall key, cookie :: Entry(key, cookie) in sent <==>
                Current(history, key, now) == Some(cookie) && Applies(cookie, request)
      ensures forall e :: e in sent ==> e.key == MakeKey(e.cookie)
      ensures forall e :: e in sent ==> e.cookie.expiresAt.None? || e.cookie.expiresAt.value > now
      ensures AllBarFree(history) ==>
                forall cookie :: Entry(MakeKey(cookie), cookie) in sent <==>
                  LastLike(history, cookie) == Some(cookie) && !IsExpired(cookie, now) && Applies(cookie, request)
    {
      RemoveExpired(now);
      ghost var live := entries;
      var matches: seq<Entry> := [];
      for i := 0 to |entries|
        invariant entries == live && history == old(history) && clock == now
        invariant matches == Applicable(entries[..i], request)
      {
        OneMoreApplicable(entries, i, request);
        if Applies(entries[i].cookie, request) {
          matches := matches + [entries[i]];
        }
      }
      ApplicableAreSent(entries, request);
      assert entries[..|entries|] == entries;
      sent := SortByPathLength(matches);
      forall n: nat ensures OfLength(sent, n) == OfLength(matches, n) {
        SortIsStable(matches, n);
      }
      SortOrders(matches);
      DistinctByMultiset(matches, sent);
      SentByName(sent, history, request, now);
    }
  }

  /** What is sent by key is sent by domain, path and name, as long as no bar comes between. */
  lemma SentByName(sent: seq<Entry>, history: seq<Entry>, request: Request, now: int)
    requires Keyed(history)
    requires forall key, cookie :: Entry(key, cookie) in sent <==>
               Current(history, key, now) == Some(cookie) && Applies(cookie, request)
    ensures forall e :: e in sent ==> e.key == MakeKey(e.cookie)
    ensures AllBarFree(history) ==>
              forall cookie :: Entry(MakeKey(cookie), cookie) in sent <==>
                LastLike(history, cookie) == Some(cookie) && !IsExpired(cookie, now) && Applies(cookie, request)
  {
    forall e | e in sent ensures e.key == MakeKey(e.cookie) {
      assert e == Entry(e.key, e.cookie);
      LastSetWasSet(history, e.key);
    }
    if AllBarFree(history) {
      forall cookie ensures Entry(MakeKey(cookie), cookie) in sent <==>
        LastLike(history, cookie) == Some(cookie) && !IsExpired(cookie, now) && Applies(cookie, request)
      {
        LastSetWasSet(history, MakeKey(cookie));
        LastLikeWasSet(history, cookie);
        if BarFree(cookie) {
          LastSetIsLastLike(history, cookie);
        }
      }
    }
  }

  lemma {:induction false} LastLikeWasSet(history: seq<Entry>, like: Cookie)
    ensures LastLike(history, like).Some? ==> exists e :: e in history && e.cookie == LastLike(history, like).value
  {
    if history != [] {
      LastLikeWasSet(history[..|history| - 1], like);
    }
  }

  lemma SettingAgrees(entries: seq<Entry>, history: seq<Entry>, entry: Entry, now: int)
    requires Agrees(entries, history, now)
    ensures IsExpired(entry.cookie, now) ==> Agrees(Without(entries, entry.key), history + [entry], now)
    ensures !IsExpired(entry.cookie, now) ==> Agrees(WithEntry(entries, entry), history + [entry], now)
  {
    assert (history + [entry])[..|history|] == history;
    WithoutKeepsDistinct(entries, entry.key);
    WithEntryKeepsDistinct(entries, entry);
    OthersAreLeft(entries, entry.key);
    OneIsSet(entries, entry);
    forall key | Current(history + [entry], key, now).Some?
      ensures !IsExpired(entry.cookie, now) || key != entry.key
      ensures Entry(key, Current(history + [entry], key, now).value) in WithEntry(entries, entry)
      ensures key != entry.key ==>
                Entry(key, Current(history + [entry], key, now).value) in Without(entries, entry.key)
    {
      if key != entry.key {
        assert Current(history + [entry], key, now) == Current(history, key, now);
      }
    }
  }
}
