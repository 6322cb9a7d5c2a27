// What Chrome's cookie becomes for Brave, the key it is known by, and how that key
// recognises the cookie again in an export (src/cookie-bridge/cdp-cookies.js,
// importer.js managedMatcher).
module CookieKeys {
  import opened Cookies
  import opened Text

  /** A chrome.cookies.Cookie as the extension sends it; `domain` without white space around it. */
  datatype Chrome = Chrome(
    name: string, value: string, domain: string, hostOnly: bool, path: Option<string>, secure: bool, httpOnly: bool,
    sameSite: Option<string>, session: bool, expirationDate: Option<real>, partition: Option<Partition>)

  datatype Mapped = Ok(param: Param, host: string) | Refused(reason: string)

  // ── characters and prefixes ──

  predicate Digit(c: char) { '0' <= c <= '9' }

  predicate Letter(c: char) { 'a' <= c <= 'z' || 'A' <= c <= 'Z' }

  predicate HostEdge(c: char) { Letter(c) || Digit(c) || c == '_' }

  predicate Ipv6Char(c: char) { Digit(c) || 'a' <= c <= 'f' || 'A' <= c <= 'F' || c == ':' || c == '.' }

  predicate StartsWith(s: string, prefix: string) {
    |prefix| <= |s| && s[..|prefix|] == prefix
  }

  function StripBrackets(s: string): string {
    if |s| >= 2 && s[0] == '[' && s[|s| - 1] == ']' then s[1..|s| - 1] else s
  }

  predicate HostName(s: string) {
    s != "" && HostEdge(s[0]) && HostEdge(s[|s| - 1]) && forall c :: c in s ==> HostEdge(c) || c == '.' || c == '-'
  }

  predicate HostOk(host: string) {
    if ':' in host then forall c :: c in host ==> Ipv6Char(c) else HostName(host)
  }

  function SameSiteOf(s: Option<string>): Option<SameSite> {
    match s
    case None => Some(Unset)
    case Some("unspecified") => Some(Unset)
    case Some("no_restriction") => Some(NoRestriction)
    case Some("lax") => Some(Lax)
    case Some("strict") => Some(Strict)
    case Some(_) => None
  }

  function SiteRest(site: string): string {
    if |site| >= 8 && Lower(site[..8]) == "https://" then site[8..]
    else if |site| >= 7 && Lower(site[..7]) == "http://" then site[7..]
    else ""
  }

  /** The text of a top-level site: a scheme, in either case, and a host. */
  predicate SiteShape(site: string) {
    SiteRest(site) != "" && forall c :: c in SiteRest(site) ==> c !in " \t\n\r/?#@"
  }

  // ── toCdpCookie ──

  function Bracketed(host: string): string {
    if ':' in host then "[" + host + "]" else host
  }

  function Scheme(secure: bool): string {
    if secure then "https://" else "http://"
  }

  /** `urlOk`: the URL parser accepts the site. */
  function Map(c: Chrome, urlOk: string -> bool): Mapped {
    var host := StripBrackets(StripDots(c.domain));
    var path := if c.path.Some? then c.path.value else "/";
    var sameSite := SameSiteOf(c.sameSite);
    if host == "" || !HostOk(host) then Refused("domain")
    else if !StartsWith(path, "/") then Refused("path")
    else if sameSite.None? then Refused("sameSite")
    else if c.partition.Some? && !(SiteShape(c.partition.value.topLevelSite) &&
        urlOk(c.partition.value.topLevelSite)) then Refused("partitionKey")
    else if sameSite.value == NoRestriction && !c.secure then Refused("SameSite=None without Secure")
    else if StartsWith(c.name, "__Secure-") && !c.secure then Refused("__Secure-")
    else if StartsWith(c.name, "__Host-") && !(c.secure && c.hostOnly && path == "/") then Refused("__Host-")
    else if c.partition.Some? && !c.secure then Refused("Partitioned without Secure")
    else
      Ok(Param(c.name, c.value, Scheme(c.secure) + Bracketed(host) + "/", if c.hostOnly then None else Some("." + host), path,
               c.secure, c.httpOnly, sameSite.value, if c.session then None else c.expirationDate, c.partition),
         host)
  }

  /** Brave gets Chrome's value, flags and lifetime as they are: a session cookie has no expiry, any other its own. */
  lemma ValueIsMapped(c: Chrome, urlOk: string -> bool)
    requires Map(c, urlOk).Ok?
    ensures var p := Map(c, urlOk).param;
      && p.value == c.value && p.secure == c.secure && p.httpOnly == c.httpOnly
      && Some(p.sameSite) == SameSiteOf(c.sameSite) && p.expires == (if c.session then None else c.expirationDate)
  {
    hide SiteShape, StartsWith, HostOk, StripBrackets, StripDots;
  }

  /** The host in Chrome's domain, without leading dots and brackets. */
  function ChromeHost(c: Chrome): string {
    StripBrackets(StripDots(c.domain))
  }

  /** Chromium would drop the cookie without an error: SameSite=None, a __Secure- name or a partition without Secure, or a __Host- name on a
      cookie that is not Secure, host-only and for the path /. */
  predicate Dropped(c: Chrome) {
    || (c.sameSite == Some("no_restriction") && !c.secure)
    || (StartsWith(c.name, "__Secure-") && !c.secure)
    || (StartsWith(c.name, "__Host-") && !(c.secure && c.hostOnly && (c.path.None? || c.path == Some("/"))))
    || (c.partition.Some? && !c.secure)
  }

  /** A cookie is mapped exactly when its domain is a host, its path absolute, its sameSite and its top-level site known ones, and Chromium
      would store it. */
  lemma MappedExactly(c: Chrome, urlOk: string -> bool)
    ensures Map(c, urlOk).Ok? <==>
      && ChromeHost(c) != "" && HostOk(ChromeHost(c)) && (c.path.Some? ==> StartsWith(c.path.value, "/"))
      && (c.sameSite.Some? ==> c.sameSite.value in {"unspecified", "no_restriction", "lax", "strict"})
      && (c.partition.Some? ==> SiteShape(c.partition.value.topLevelSite) && urlOk(c.partition.value.topLevelSite))
      && !Dropped(c)
  {
    hide SiteShape, HostOk, StripBrackets, StripDots;
    assert StartsWith("/", "/");
    SameSiteNone(c.sameSite);
    hide StartsWith, SameSiteOf;
  }

  lemma SameSiteNone(s: Option<string>)
    ensures SameSiteOf(s).Some? <==> (s.Some? ==> s.value in {"unspecified", "no_restriction", "lax", "strict"})
    ensures SameSiteOf(s) == Some(NoRestriction) <==> s == Some("no_restriction")
  {
  }

  // ── keys ──

  const NUL: char := '\0'

  predicate NulFree(s: string) { NUL !in s }

  function WithoutScheme(url: string): string {
    if StartsWith(url, "https://") then url[8..] else if StartsWith(url, "http://") then url[7..] else url
  }

  /** Where a cookie is stored: its domain, or for a host-only cookie its host. Secure is no part of it. */
  function Where(p: Param): string {
    if p.domain.Some? && p.domain.value != "" then p.domain.value else "host:" + WithoutScheme(p.url)
  }

  function SiteText(p: Param): string {
    if p.partition.Some? then p.partition.value.topLevelSite else ""
  }

  function AncestorText(p: Param): string {
    if p.partition.Some? then (if p.partition.value.crossSiteAncestor then "true" else "false") else ""
  }

  function Parts(p: Param): seq<string> {
    [p.name, Where(p), p.path, SiteText(p), AncestorText(p)]
  }

  function CookieKey(p: Param): Key {
    Join(Parts(p), NUL)
  }

  /** No part of the cookie's identity contains a NUL. */
  predicate Clean(c: Chrome) {
    && NulFree(c.name) && (c.path.Some? ==> NulFree(c.path.value))
    && (c.partition.Some? ==> NulFree(c.partition.value.topLevelSite))
  }

  function WhereText(host: string, hostOnly: bool): string {
    if hostOnly then "host:" + Bracketed(host) + "/" else "." + host
  }

  lemma SchemeOff(secure: bool, tail: string)
    ensures WithoutScheme(Scheme(secure) + tail) == tail
  {
    var url := Scheme(secure) + tail;
    assert url[..|Scheme(secure)|] == Scheme(secure) && url[|Scheme(secure)|..] == tail;
    if !secure { assert url[4] == ':' && "https://"[4] == 's'; }
  }

  lemma MappedFields(c: Chrome, urlOk: string -> bool)
    requires Map(c, urlOk).Ok?
    ensures
      var m := Map(c, urlOk);
      && m.param.name == c.name && m.param.path == (if c.path.Some? then c.path.value else "/") &&
          m.param.partition == c.partition
      && m.host != "" && HostOk(m.host) && m.param.domain == (if c.hostOnly then None else Some("." + m.host))
      && m.param.url == Scheme(c.secure) + (Bracketed(m.host) + "/")
      && StartsWith(m.param.path, "/") && (c.partition.Some? ==> SiteShape(c.partition.value.topLevelSite))
  {
    hide SiteShape, StartsWith, SameSiteOf, Scheme, Bracketed, HostOk, StripBrackets, StripDots;
    var m := Map(c, urlOk);
    assert m.param.url == Scheme(c.secure) + Bracketed(m.host) + "/" == Scheme(c.secure) + (Bracketed(m.host) + "/");
  }

  /** What a mapped cookie keeps of Chrome's. */
  lemma MappedIs(c: Chrome, urlOk: string -> bool)
    requires Map(c, urlOk).Ok?
    ensures
      var m := Map(c, urlOk);
      && m.param.name == c.name && m.param.path == (if c.path.Some? then c.path.value else "/") &&
          m.param.partition == c.partition
      && m.host != "" && HostOk(m.host) && Where(m.param) == WhereText(m.host, c.hostOnly)
      && m.param.url == Scheme(c.secure) + (Bracketed(m.host) + "/") &&
          m.param.domain == (if c.hostOnly then None else Some("." + m.host))
      && StartsWith(m.param.path, "/") && (c.partition.Some? ==> SiteShape(c.partition.value.topLevelSite))
  {
    hide Map, SiteShape, StartsWith, Scheme, Bracketed, HostOk, WithoutScheme;
    MappedFields(c, urlOk);
    SchemeOff(c.secure, Bracketed(Map(c, urlOk).host) + "/");
  }

  lemma PartsClean(c: Chrome, urlOk: string -> bool)
    requires Map(c, urlOk).Ok? && Clean(c)
    ensures forall a :: a in Parts(Map(c, urlOk).param) ==> NulFree(a)
  {
    hide Map, SiteShape;
    MappedIs(c, urlOk);
    var host := Map(c, urlOk).host;
    assert NulFree(host);
    assert NulFree(WhereText(host, c.hostOnly));
  }

  lemma WhereIdentifies(host1: string, only1: bool, host2: string, only2: bool)
    requires WhereText(host1, only1) == WhereText(host2, only2)
    requires HostOk(host1) && HostOk(host2)
    ensures host1 == host2 && only1 == only2
  {
    var w1, w2 := WhereText(host1, only1), WhereText(host2, only2);
    assert only1 == (w1[0] == 'h') && only2 == (w2[0] == 'h');
    if only1 {
      assert Bracketed(host1) == w1[5..|w1| - 1] && Bracketed(host2) == w2[5..|w2| - 1];
      var b := Bracketed(host1);
      if ':' in host1 {
        assert b[0] == '[';
        assert host1 == b[1..|b| - 1];
        assert ':' in host2;
        assert host2 == b[1..|b| - 1];
      }
    } else {
      assert host1 == w1[1..] && host2 == w2[1..];
    }
  }

  lemma NoSite()
    ensures !SiteShape("")
  {
    assert SiteRest("") == "";
  }

  /** Two cookies have one key exactly when Chromium stores them in one place: same name, host, kind of domain, path and partition. */
  lemma KeyIdentifies(c1: Chrome, c2: Chrome, urlOk: string -> bool)
    requires Map(c1, urlOk).Ok? && Map(c2, urlOk).Ok? && Clean(c1) && Clean(c2)
    ensures
      var m1, m2 := Map(c1, urlOk), Map(c2, urlOk);
      CookieKey(m1.param) == CookieKey(m2.param) <==>
      && m1.param.name == m2.param.name && m1.host == m2.host && c1.hostOnly == c2.hostOnly
      && m1.param.path == m2.param.path && m1.param.partition == m2.param.partition
  {
    var m1, m2 := Map(c1, urlOk), Map(c2, urlOk);
    var p1, p2 := m1.param, m2.param;
    MappedIs(c1, urlOk);
    MappedIs(c2, urlOk);
    hide Map, WhereText, Where, Split, Join, SiteRest;
    if CookieKey(p1) == CookieKey(p2) {
      PartsClean(c1, urlOk);
      PartsClean(c2, urlOk);
      SplitJoin(Parts(p1), NUL);
      SplitJoin(Parts(p2), NUL);
      assert Parts(p1)[0] == Parts(p2)[0] && Parts(p1)[1] == Parts(p2)[1] && Parts(p1)[2] == Parts(p2)[2];
      assert Parts(p1)[3] == Parts(p2)[3] && Parts(p1)[4] == Parts(p2)[4];
      WhereIdentifies(m1.host, c1.hostOnly, m2.host, c2.hostOnly);
      NoSite();
    }
  }

  // ── the state file and deletions ──

  /** What the state file's reader asks of an entry. */
  predicate ValidIdentity(p: Param) {
    && (StartsWith(p.url, "https://") || StartsWith(p.url, "http://"))
    && (var rest := WithoutScheme(p.url);
        |rest| >= 2 && rest[|rest| - 1] == '/' && forall x :: x in rest[..|rest| - 1] ==> x !in " \t\n\r/")
    && StartsWith(p.path, "/") && (p.domain.Some? ==> StartsWith(p.domain.value, "."))
  }

  /** A restart forgets no cookie and no deletion: what the file keeps of a mapped cookie is read back, under the key it had. */
  lemma IdentitySurvivesTheFile(c: Chrome, urlOk: string -> bool)
    requires Map(c, urlOk).Ok?
    ensures
      var p := Map(c, urlOk).param;
      ValidIdentity(IdentityOf(p)) && CookieKey(IdentityOf(p)) == CookieKey(p) &&
          CookieKey(ExpireParam(IdentityOf(p))) == CookieKey(p)
  {
    hide Map, SiteShape, Where, Join, Split, HostOk, ValidIdentity, CookieKey;
    MappedIs(c, urlOk);
    var m := Map(c, urlOk);
    IdentityIsValid(IdentityOf(m.param), m.host, c.secure);
    SameKey(m.param);
  }

  lemma IdentityIsValid(p: Param, host: string, secure: bool)
    requires host != "" && HostOk(host) && p.url == Scheme(secure) + (Bracketed(host) + "/")
    requires StartsWith(p.path, "/") && (p.domain.Some? ==> p.domain.value == "." + host)
    ensures ValidIdentity(p)
  {
    var tail := Bracketed(host) + "/";
    HostChars(host);
    SchemeOff(secure, tail);
    assert StartsWith(Scheme(secure) + tail, Scheme(secure));
    assert tail[..|tail| - 1] == Bracketed(host);
    hide HostOk, WithoutScheme;
  }

  lemma SameKey(p: Param)
    ensures CookieKey(IdentityOf(p)) == CookieKey(p) && CookieKey(ExpireParam(IdentityOf(p))) == CookieKey(p)
    ensures CookieKey(ExpireParam(p)) == CookieKey(p)
  {
    hide Join;
  }

  lemma HostChars(host: string)
    requires HostOk(host)
    ensures forall x :: x in Bracketed(host) ==> x !in " \t\n\r/"
  {
  }

  // ── recognising a cookie in an export ──

  /** A cookie as Brave exports it. */
  datatype Exported = Exported(name: string, domain: string, path: Option<string>)

  function KeyEntry(k: Key): string
    requires |Split(k, NUL)| >= 3
  {
    var parts := Split(k, NUL);
    Join([parts[0], Lower(parts[1]), parts[2]], NUL)
  }

  function PathOf(e: Exported): string {
    if e.path.Some? then e.path.value else "/"
  }

  function ExportWhere(e: Exported): string {
    var d := Lower(e.domain);
    if StartsWith(d, ".") then d else "host:" + d + "/"
  }

  function ExportEntry(e: Exported): string {
    Join([e.name, ExportWhere(e), PathOf(e)], NUL)
  }

  /** The index managedMatcher builds over the keys the bridge knows. */
  method ManagedIndex(keys: set<Key>) returns (index: set<string>)
    requires forall k :: k in keys ==> |Split(k, NUL)| >= 3
    ensures forall x :: x in index <==> exists k :: k in keys && KeyEntry(k) == x
  {
    hide Split, Join, Lower, KeyEntry;
    index := {};
    var todo := keys;
    while exists k :: k in todo
      invariant todo <= keys
      invariant forall x :: x in index <==> exists k :: k in keys - todo && KeyEntry(k) == x
      decreases |todo|
    {
      var k: Key :| k in todo;
      assert keys - (todo - {k}) == (keys - todo) + {k};
      index, todo := index + {KeyEntry(k)}, todo - {k};
    }
    assert keys - todo == keys;
  }

  /** The domain Brave stores and exports for a cookie. */
  function StoredDomain(host: string, hostOnly: bool): string {
    if hostOnly then Bracketed(host) else "." + host
  }

  lemma LowerWhere(host: string, hostOnly: bool)
    requires host != "" && HostOk(host)
    ensures
      Lower(WhereText(host, hostOnly)) == (if hostOnly then "host:" + Lower(Bracketed(host)) + "/" else Lower("." + host))
    ensures StartsWith(Lower(StoredDomain(host, hostOnly)), ".") <==> !hostOnly
  {
    var w := WhereText(host, hostOnly);
    if hostOnly {
      var b := Bracketed(host);
      var r := "host:" + Lower(b) + "/";
      forall i | 0 <= i < |w| ensures Lower(w)[i] == r[i] {
        if 5 <= i < |w| - 1 { assert w[i] == b[i - 5]; }
      }
    }
  }

  /** An export's entry is the key's exactly when name and path are the cookie's and the domain is, letter case aside. */
  lemma MaskIsExact(c: Chrome, urlOk: string -> bool, e: Exported)
    requires Map(c, urlOk).Ok? && Clean(c) && NulFree(e.name) && NulFree(e.domain) && NulFree(PathOf(e))
    ensures
      var m := Map(c, urlOk);
      && |Split(CookieKey(m.param), NUL)| >= 3
      && (KeyEntry(CookieKey(m.param)) == ExportEntry(e) <==>
          e.name == m.param.name && PathOf(e) == m.param.path && Lower(e.domain) == Lower(StoredDomain(m.host, c.hostOnly)))
  {
    hide Map, SiteShape, WhereText, Where, StoredDomain, Join, Split, KeyEntry, Lower, ExportWhere, PathOf;
    var m := Map(c, urlOk);
    MappedIs(c, urlOk);
    KeyEntryIs(c, urlOk);
    ExportEntryIs(e);
    JoinThree(m.param.name, Lower(Where(m.param)), m.param.path, e.name, ExportWhere(e), PathOf(e));
    WhereMatches(m.host, c.hostOnly, e);
  }

  lemma KeyEntryIs(c: Chrome, urlOk: string -> bool)
    requires Map(c, urlOk).Ok? && Clean(c)
    ensures
      var p := Map(c, urlOk).param;
      && |Split(CookieKey(p), NUL)| >= 3 && KeyEntry(CookieKey(p)) == Join([p.name, Lower(Where(p)), p.path], NUL)
      && NulFree(p.name) && NulFree(Lower(Where(p))) && NulFree(p.path)
  {
    hide Map, SiteShape, Where, Join, Split;
    var p := Map(c, urlOk).param;
    PartsClean(c, urlOk);
    SplitJoin(Parts(p), NUL);
    assert p.name in Parts(p) && Where(p) in Parts(p) && p.path in Parts(p);
    LowerNulFree(Where(p));
  }

  lemma ExportEntryIs(e: Exported)
    requires NulFree(e.domain)
    ensures NulFree(ExportWhere(e))
  {
    LowerNulFree(e.domain);
  }

  lemma JoinThree(a1: string, a2: string, a3: string, b1: string, b2: string, b3: string)
    requires NulFree(a1) && NulFree(a2) && NulFree(a3) && NulFree(b1) && NulFree(b2) && NulFree(b3)
    ensures Join([a1, a2, a3], NUL) == Join([b1, b2, b3], NUL) <==> a1 == b1 && a2 == b2 && a3 == b3
  {
    var a, b := [a1, a2, a3], [b1, b2, b3];
    SplitJoin(a, NUL);
    SplitJoin(b, NUL);
    hide Join, Split;
    assert a == b <==> a[0] == b[0] && a[1] == b[1] && a[2] == b[2];
  }

  lemma LowerNulFree(s: string)
    requires NulFree(s)
    ensures NulFree(Lower(s))
  {
  }

  lemma WhereMatches(host: string, hostOnly: bool, e: Exported)
    requires host != "" && HostOk(host)
    ensures Lower(WhereText(host, hostOnly)) == ExportWhere(e) <==> Lower(e.domain) == Lower(StoredDomain(host, hostOnly))
  {
    LowerWhere(host, hostOnly);
    var d, b := Lower(e.domain), Lower(Bracketed(host));
    if hostOnly && !StartsWith(d, ".") {
      var w, v := "host:" + b + "/", "host:" + d + "/";
      assert b == w[5..|w| - 1] && d == v[5..|v| - 1];
    }
  }
}
