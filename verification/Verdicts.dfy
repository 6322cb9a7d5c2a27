// What the policy's verdicts mean for a domain as it is written, and the walk over the
// host and its parents that finds them (extensions/cookie-bridge/policy.js classify).
module Verdicts {
  import opened Cookies
  import opened Text
  import opened Policy
  import opened Domains

  /** The built-in lists as they are written. */
  datatype Written = Written(deny: set<string>, denyTlds: set<string>, govSecond: set<string>, keywords: seq<string>)

  predicate EndsWith(s: string, t: string) {
    |t| <= |s| && s[|s| - |t|..] == t
  }

  /** The host is d or lies under it. */
  predicate Under(host: string, d: string) {
    host == d || EndsWith(host, "." + d)
  }

  const LOCAL_SUFFIXES := ["local", "lan", "internal", "home.arpa"]

  /** The host is, or lies under, a denied domain, a denied top label, a Google country site, or a government's suffix. */
  ghost predicate Denied(lists: Written, host: string) {
    || (exists d :: d in lists.deny && Under(host, d))
    || (exists t :: t in lists.denyTlds && '.' !in t && Under(host, t))
    || (exists d :: Under(host, d) && GoogleCountry(Split(d, '.')))
    || (exists g, c :: g in lists.govSecond && '.' !in g && |c| == 2 && '.' !in c && Under(host, g + "." + c))
  }

  ghost predicate Covered(allow: set<string>, host: string) {
    exists a :: a in allow && Under(host, a)
  }

  /** A single label, a local network's name, a keyword anywhere, or a label but the last that ends in "cu". */
  ghost predicate Suspect(lists: Written, host: string) {
    || '.' !in host || (exists x :: x in LOCAL_SUFFIXES && Under(host, x))
    || (exists k :: k in lists.keywords && Contains(host, k))
    || (exists i :: 0 <= i < |Split(host, '.')| - 1 && EndsWith(Split(host, '.')[i], "cu"))
  }

  // ── text and labels ──

  /** The hosts that these texts name. */
  ghost function Hosts(names: set<string>): set<Host> {
    set n | n in names :: Split(n, '.')
  }

  ghost function HostLists(lists: Written): Lists {
    Lists(Hosts(lists.deny), lists.denyTlds, lists.govSecond, set k | k in lists.keywords)
  }

  lemma {:induction false} SplitTwo(a: string, b: string)
    ensures Split(a + "." + b, '.') == Split(a, '.') + Split(b, '.')
  {
    if a == "" {
      assert (a + "." + b)[1..] == b;
    } else {
      assert (a + "." + b)[1..] == a[1..] + "." + b;
      SplitTwo(a[1..], b);
    }
  }

  lemma {:induction false} JoinTail(h: seq<string>, j: nat)
    requires j < |h|
    ensures if j == 0 then Join(h, '.') == Join(h[j..], '.') else EndsWith(Join(h, '.'), "." + Join(h[j..], '.'))
    decreases j
  {
    if j == 0 {
      assert h[0..] == h;
    } else {
      JoinTail(h[1..], j - 1);
      assert h[1..][j - 1..] == h[j..];
      var tail := "." + Join(h[1..], '.');
      assert Join(h, '.') == h[0] + tail by { assert h[0] + ['.'] + Join(h[1..], '.') == h[0] + tail; }
      assert EndsWith(tail, "." + Join(h[j..], '.'));
      EndsChain(h[0], tail, "." + Join(h[j..], '.'));
    }
  }

  lemma EndsChain(a: string, s: string, t: string)
    requires EndsWith(s, t)
    ensures EndsWith(a + s, t)
  {
    assert (a + s)[|a + s| - |t|..] == s[|s| - |t|..];
  }

  /** Lying under a domain is having its labels last. */
  lemma UnderIsSuffix(host: string, d: string)
    ensures Under(host, d) <==> HasSuffix(Split(host, '.'), Split(d, '.'))
  {
    var h, s := Split(host, '.'), Split(d, '.');
    JoinSplit(host, '.');
    JoinSplit(d, '.');
    if HasSuffix(h, s) { JoinTail(h, |h| - |s|); }
    if host != d && EndsWith(host, "." + d) {
      var a := host[..|host| - |d| - 1];
      assert host == a + "." + d;
      SplitTwo(a, d);
    }
  }

  lemma SplitLabel(t: string)
    requires '.' !in t
    ensures Split(t, '.') == [t]
  {
    SplitPart(t, "", '.');
  }

  lemma SplitPair(g: string, c: string)
    requires '.' !in g && '.' !in c
    ensures Split(g + "." + c, '.') == [g, c]
  {
    SplitTwo(g, c);
    SplitLabel(g);
    SplitLabel(c);
  }

  // ── the verdict ──

  lemma OnListIs(lists: Written, host: string)
    ensures OnDenylist(HostLists(lists), Split(host, '.')) <==>
            (exists d :: d in lists.deny && Under(host, d)) || (exists d :: Under(host, d) && GoogleCountry(Split(d, '.')))
  {
    var h := Split(host, '.');
    hide Under, HasSuffix, GoogleCountry;
    forall d ensures Under(host, d) <==> HasSuffix(h, Split(d, '.')) { UnderIsSuffix(host, d); }
    if OnDenylist(HostLists(lists), h) {
      var s :| HasSuffix(h, s) && (s in Hosts(lists.deny) || GoogleCountry(s));
      PartsPlain(host, s);
      SplitJoin(s, '.');
      assert Under(host, Join(s, '.'));
      if s in Hosts(lists.deny) {
        var d :| d in lists.deny && Split(d, '.') == s;
        assert Under(host, d);
      }
    }
  }

  lemma PartsPlain(host: string, s: Host)
    requires HasSuffix(Split(host, '.'), s)
    ensures s != [] && forall a :: a in s ==> '.' !in a
  {
    JoinSplit(host, '.');
  }

  lemma TopIs(lists: Written, host: string)
    ensures DeniedTop(HostLists(lists), Split(host, '.')) <==>
            || (exists t :: t in lists.denyTlds && '.' !in t && Under(host, t))
            || (exists g, c :: g in lists.govSecond && '.' !in g && |c| == 2 && '.' !in c && Under(host, g + "." + c))
  {
    var h := Split(host, '.');
    JoinSplit(host, '.');
    hide Under;
    var tld := h[|h| - 1];
    SplitLabel(tld);
    UnderIsSuffix(host, tld);
    assert h[|h| - 1..] == [tld];
    if t :| t in lists.denyTlds && '.' !in t && Under(host, t) {
      SplitLabel(t);
      UnderIsSuffix(host, t);
    }
    if |h| >= 2 {
      var g := h[|h| - 2];
      SplitPair(g, tld);
      UnderIsSuffix(host, g + "." + tld);
      assert h[|h| - 2..] == [g, tld];
    }
    if g, c :| g in lists.govSecond && '.' !in g && |c| == 2 && '.' !in c && Under(host, g + "." + c) {
      SplitPair(g, c);
      UnderIsSuffix(host, g + "." + c);
    }
  }

  lemma DeniedIs(lists: Written, host: string)
    ensures Denied(lists, host) <==>
            OnDenylist(HostLists(lists), Split(host, '.')) || DeniedTop(HostLists(lists), Split(host, '.'))
  {
    OnListIs(lists, host);
    TopIs(lists, host);
    hide Under, OnDenylist, DeniedTop, GoogleCountry;
  }

  lemma CoveredIs(allow: set<string>, host: string)
    ensures Covered(allow, host) <==> Listed(Hosts(allow), Split(host, '.'))
  {
    hide Under, HasSuffix;
    forall d ensures Under(host, d) <==> HasSuffix(Split(host, '.'), Split(d, '.')) { UnderIsSuffix(host, d); }
    if Covered(allow, host) {
      var a :| a in allow && Under(host, a);
      assert Split(a, '.') in Hosts(allow);
    }
  }

  lemma LocalLabels()
    ensures Split("local", '.') == ["local"] && Split("lan", '.') == ["lan"] && Split("internal", '.') == ["internal"]
    ensures Split("home.arpa", '.') == ["home", "arpa"]
  {
    hide Split;
    SplitLabel("local");
    SplitLabel("lan");
    SplitLabel("internal");
    SplitPair("home", "arpa");
    assert "home" + "." + "arpa" == "home.arpa";
  }

  lemma AnyOf(all: seq<string>, a: string, b: string, c: string, d: string, x: string)
    requires all == [a, b, c, d]
    ensures x in all <==> x == a || x == b || x == c || x == d
  {
  }

  lemma LocalIs(host: string)
    ensures IsLocal(Split(host, '.')) <==> exists x :: x in LOCAL_SUFFIXES && Under(host, x)
  {
    hide Under, HasSuffix, Split;
    LocalLabels();
    UnderIsSuffix(host, "local");
    UnderIsSuffix(host, "lan");
    UnderIsSuffix(host, "internal");
    UnderIsSuffix(host, "home.arpa");
    forall x ensures x in LOCAL_SUFFIXES <==> x == "local" || x == "lan" || x == "internal" || x == "home.arpa" {
      AnyOf(LOCAL_SUFFIXES, "local", "lan", "internal", "home.arpa", x);
    }
    AnyLocal(host);
  }

  lemma AnyLocal(host: string)
    requires forall x :: x in LOCAL_SUFFIXES <==> x == "local" || x == "lan" || x == "internal" || x == "home.arpa"
    ensures (exists x :: x in LOCAL_SUFFIXES && Under(host, x)) <==>
            Under(host, "local") || Under(host, "lan") || Under(host, "internal") || Under(host, "home.arpa")
  {
    hide Under;
  }

  lemma {:induction false} OneLabel(host: string)
    ensures |Split(host, '.')| == 1 <==> '.' !in host
  {
    if host != "" { OneLabel(host[1..]); }
  }

  lemma SuspectIs(lists: Written, host: string)
    ensures Suspect(lists, host) <==> Suspicious(HostLists(lists), Split(host, '.'))
  {
    LocalIs(host);
    OneLabel(host);
    JoinSplit(host, '.');
    hide IsLocal, Under, Contains, Split, Join;
    var h := Split(host, '.');
    assert forall i :: 0 <= i < |h| ==> (EndsWith(h[i], "cu") <==> |h[i]| >= 2 && h[i][|h[i]| - 2..] == "cu");
    hide EndsWith;
  }

  lemma SameName(host: string, names: set<string>)
    ensures host in names <==> Split(host, '.') in Hosts(names)
  {
    if Split(host, '.') in Hosts(names) {
      var n :| n in names && Split(n, '.') == Split(host, '.');
      SpelledOnce(n, host);
    }
  }

  lemma LocalhostIs(host: string)
    ensures host == "localhost" <==> Split(host, '.') == ["localhost"]
  {
    SplitLabel("localhost");
    if Split(host, '.') == ["localhost"] { SpelledOnce(host, "localhost"); }
  }

  /** What the verdict on a domain means. An address is allowed if it is listed, else held; what is no host is denied. A host that is or lies
      under a denied domain, a denied top label, a government's suffix or a Google country site is denied, whatever the list
      says, and no other is. Of the others, those that look sensitive are held unless the list covers them or it is localhost. */
  ghost predicate Means(lists: Written, domain: string, allow: set<string>, d: Decision) {
    var host := NormalizeDomain(domain);
    && (IsIp(HostOf(domain)) ==> d == if host in allow then Allow else Hold)
    && (!IsIp(HostOf(domain)) && !WellFormed(HostOf(domain)) ==> d == Deny)
    && (!IsIp(HostOf(domain)) && WellFormed(HostOf(domain)) ==>
          && (d == Deny <==> Denied(lists, host))
          && (d == Hold <==> !Denied(lists, host) && Suspect(lists, host) && !Covered(allow, host) && host != "localhost"))
  }

  lemma VerdictMeans(lists: Written, domain: string, allow: set<string>)
    ensures Means(lists, domain, allow, Classify(HostLists(lists), HostOf(domain), Hosts(allow)))
  {
    var host := NormalizeDomain(domain);
    hide NormalizeDomain, IsIp, WellFormed, Denied, Suspect, Covered, OnDenylist, DeniedTop, Listed, Suspicious, Split;
    DeniedIs(lists, host);
    SuspectIs(lists, host);
    CoveredIs(allow, host);
    SameName(host, allow);
    LocalhostIs(host);
  }

  // ── the walk ──

  lemma ListedParents(host: string, list: seq<string>, t: string)
    requires t in list <==> exists s :: HasSuffix(Split(host, '.'), s) && t == Join(s, '.')
    ensures t in list <==> Under(host, t)
  {
    var h := Split(host, '.');
    hide Under, HasSuffix;
    UnderIsSuffix(host, t);
    JoinSplit(t, '.');
    if s :| HasSuffix(h, s) && t == Join(s, '.') {
      PartsPlain(host, s);
      SplitJoin(s, '.');
    }
  }

  /** The first of the names, if any, that the host is or lies under. */
  method FindParent(list: seq<string>, names: set<string>) returns (found: bool)
    ensures found <==> exists t :: t in list && t in names
  {
    found := false;
    for i := 0 to |list|
      invariant found <==> exists j :: 0 <= j < i && list[j] in names
    {
      if list[i] in names { found := true; }
    }
  }

  method FindDenied(lists: Written, host: string, list: seq<string>) returns (found: bool)
    requires forall t :: t in list <==> Under(host, t)
    ensures found <==> (exists d :: d in lists.deny && Under(host, d)) || (exists d :: Under(host, d) && GoogleCountry(Split(d, '.')))
  {
    hide Under, GoogleCountry, Split;
    for i := 0 to |list|
      invariant forall j :: 0 <= j < i ==> list[j] !in lists.deny && !GoogleCountry(Split(list[j], '.'))
    {
      if list[i] in lists.deny || GoogleCountry(Split(list[i], '.')) {
        assert Under(host, list[i]);
        return true;
      }
    }
    found := false;
  }

  method FindSuspect(lists: Written, host: string) returns (found: bool)
    ensures found <==> Suspect(lists, host)
  {
    hide Under, Contains;
    var labels := Split(host, '.');
    OneLabel(host);
    if |labels| == 1 { return true; }
    for i := 0 to |LOCAL_SUFFIXES|
      invariant forall j :: 0 <= j < i ==> !Under(host, LOCAL_SUFFIXES[j])
    {
      if host == LOCAL_SUFFIXES[i] || EndsWith(host, "." + LOCAL_SUFFIXES[i]) {
        UnderIs(host, LOCAL_SUFFIXES[i]);
        return true;
      }
      UnderIs(host, LOCAL_SUFFIXES[i]);
    }
    for i := 0 to |lists.keywords|
      invariant forall j :: 0 <= j < i ==> !Contains(host, lists.keywords[j])
    {
      if Contains(host, lists.keywords[i]) { return true; }
    }
    for i := 0 to |labels| - 1
      invariant forall j :: 0 <= j < i ==> !EndsWith(labels[j], "cu")
    {
      if EndsWith(labels[i], "cu") { return true; }
    }
    found := false;
  }

  lemma UnderIs(host: string, d: string)
    ensures Under(host, d) <==> host == d || EndsWith(host, "." + d)
  {
  }

  /** classify(): the verdict on a domain as it is written. */
  method ClassifyDomain(lists: Written, domain: string, allow: set<string>) returns (d: Decision)
    ensures Means(lists, domain, allow, d)
    ensures d == Classify(HostLists(lists), HostOf(domain), Hosts(allow))
  {
    hide IsIp, WellFormed, OnDenylist, Listed, Suspicious, Under, Suspect, HasSuffix, NormalizeDomain, Means;
    VerdictMeans(lists, domain, allow);
    var host := NormalizeDomain(domain);
    var labels := Split(host, '.');
    SameName(host, allow);
    if IsIp(labels) { return if host in allow then Allow else Hold; }
    if !WellFormed(labels) { return Deny; }
    var list := Suffixes(host);
    forall t ensures t in list <==> Under(host, t) { ListedParents(host, list, t); }
    OnListIs(lists, host);
    var denied := FindDenied(lists, host, list);
    if denied { return Deny; }
    var tld := labels[|labels| - 1];
    if tld in lists.denyTlds || (|labels| >= 2 && |tld| == 2 && labels[|labels| - 2] in lists.govSecond) { return Deny; }
    var listed := FindParent(list, allow);
    CoveredIs(allow, host);
    if listed { return Allow; }
    LocalhostIs(host);
    if host == "localhost" { return Allow; }
    SuspectIs(lists, host);
    var suspect := FindSuspect(lists, host);
    return if suspect then Hold else Allow;
  }
}
