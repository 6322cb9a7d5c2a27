// Which hosts' cookies sync: the built-in policy, the owner's always-allow list, and
// the owner's overrides (extensions/cookie-bridge/policy.js, bridge-core.js), with the
// broker's second check (src/cookie-bridge/importer.js).
module Policy {
  import opened Cookies
  import opened Text

  /** A normalized host: its labels, as the dots separate them. */
  type Host = seq<string>

  /** The built-in lists: denied hosts, denied top-level labels, the second-level labels of governments, keywords. */
  datatype Lists = Lists(deny: set<Host>, denyTlds: set<string>, govSecond: set<string>, keywords: set<string>)

  datatype Decision = Allow | Deny | Hold

  // ── hosts ──

  predicate IsDigit(c: char) { '0' <= c <= '9' }

  predicate IsLetter(c: char) { 'a' <= c <= 'z' }

  predicate IsHex(c: char) { IsDigit(c) || 'a' <= c <= 'f' }

  predicate Digits(s: string) {
    1 <= |s| <= 3 && forall c :: c in s ==> IsDigit(c)
  }

  predicate IsIpv4(h: Host) {
    |h| == 4 && forall l :: l in h ==> Digits(l)
  }

  /** Character i of label j may stand in an IPv6 address; brackets only around the whole. */
  predicate InIpv6(h: Host, j: nat, i: nat)
    requires j < |h| && i < |h[j]|
  {
    var c := h[j][i];
    IsHex(c) || c == ':' || (c == '[' && j == 0 && i == 0) || (c == ']' && j == |h| - 1 && i == |h[j]| - 1)
  }

  predicate IsIpv6(h: Host) {
    && (exists l :: l in h && ':' in l)
    && forall j, i :: 0 <= j < |h| && 0 <= i < |h[j]| ==> InIpv6(h, j, i)
  }

  predicate IsIp(h: Host) {
    IsIpv4(h) || IsIpv6(h)
  }

  predicate Edge(c: char) { IsLetter(c) || IsDigit(c) || c == '_' }

  predicate LabelOk(l: string) {
    1 <= |l| <= 63 && Edge(l[0]) && Edge(l[|l| - 1]) && forall c :: c in l ==> Edge(c) || c == '-'
  }

  /** The length of the host written out: its labels and the dots between them. */
  function Length(h: Host): int {
    if h == [] then -1 else |h[0]| + 1 + Length(h[1..])
  }

  predicate WellFormed(h: Host) {
    h != [] && Length(h) <= 253 && forall l :: l in h ==> LabelOk(l)
  }

  /** s is the host or one of its parents. */
  predicate HasSuffix(h: Host, s: Host) {
    s != [] && |s| <= |h| && h[|h| - |s|..] == s
  }

  /** Google's country sites: google.xx, google.co.xx, google.com.xx. */
  predicate GoogleCountry(s: Host) {
    && (|s| == 2 || (|s| == 3 && s[1] in {"co", "com"})) && s[0] == "google"
    && |s[|s| - 1]| == 2 && forall c :: c in s[|s| - 1] ==> IsLetter(c)
  }

  predicate ContainsAt(l: string, word: string, i: nat) {
    i + |word| <= |l| && l[i..i + |word|] == word
  }

  predicate Contains(l: string, word: string) {
    exists i :: 0 <= i <= |l| && ContainsAt(l, word, i)
  }

  predicate IsLocal(h: Host) {
    HasSuffix(h, ["local"]) || HasSuffix(h, ["lan"]) || HasSuffix(h, ["internal"]) || HasSuffix(h, ["home", "arpa"])
  }

  // ── classify ──

  ghost predicate OnDenylist(lists: Lists, h: Host) {
    exists s :: HasSuffix(h, s) && (s in lists.deny || GoogleCountry(s))
  }

  predicate DeniedTop(lists: Lists, h: Host)
    requires h != []
  {
    var tld := h[|h| - 1];
    tld in lists.denyTlds || (|h| >= 2 && |tld| == 2 && h[|h| - 2] in lists.govSecond)
  }

  ghost predicate Listed(allow: set<Host>, h: Host) {
    exists s :: HasSuffix(h, s) && s in allow
  }

  ghost predicate Suspicious(lists: Lists, h: Host) {
    || |h| == 1 || IsLocal(h)
    || (exists w :: w in lists.keywords && Contains(Join(h, '.'), w))
    || (exists i :: 0 <= i < |h| - 1 && |h[i]| >= 2 && h[i][|h[i]| - 2..] == "cu")
  }

  /** The policy's verdict; `allow` is the owner's always-allow list. */
  ghost function Classify(lists: Lists, h: Host, allow: set<Host>): Decision {
    if IsIp(h) then if h in allow then Allow else Hold
    else if !WellFormed(h) then Deny
    else if OnDenylist(lists, h) || DeniedTop(lists, h) then Deny
    else if Listed(allow, h) then Allow
    else if h == ["localhost"] then Allow
    else if Suspicious(lists, h) then Hold
    else Allow
  }

  /** The list covers the host: the address itself, or the host or a parent of it. */
  ghost predicate Covers(allow: set<Host>, h: Host) {
    if IsIp(h) then h in allow else Listed(allow, h)
  }

  /** The always-allow list turns hold into allow, for exactly the hosts it covers, and changes no other decision. */
  lemma ListOnlyLiftsHolds(lists: Lists, h: Host, allow: set<Host>)
    ensures
      var without, given := Classify(lists, h, {}), Classify(lists, h, allow);
      given == if without == Hold && Covers(allow, h) then Allow else without
  {
    if !IsIp(h) { assert !Listed({}, h); }
  }

  /** No entry of the built-in lists is made of numbers only. */
  ghost predicate Lettered(lists: Lists) {
    && (forall s :: s in lists.deny ==> exists l :: l in s && !Digits(l))
    && (forall t :: t in lists.denyTlds + lists.govSecond ==> !Digits(t))
  }

  lemma LengthOfSub(h: Host, l: string)
    ensures Length([l] + h) == |l| + 1 + Length(h)
  {
    assert ([l] + h)[1..] == h;
  }

  lemma {:induction false} NumbersAreShort(h: Host)
    requires forall l :: l in h ==> Digits(l)
    ensures Length(h) <= 4 * |h| - 1
  {
    if h != [] {
      assert h[0] in h;
      NumbersAreShort(h[1..]);
    }
  }

  lemma DenylistIsLettered(lists: Lists, h: Host)
    requires Lettered(lists) && OnDenylist(lists, h)
    ensures exists l :: l in h && !Digits(l)
  {
    var s :| HasSuffix(h, s) && (s in lists.deny || GoogleCountry(s));
    if GoogleCountry(s) { assert s[0] in s && !Digits(s[0]); }
    var l :| l in s && !Digits(l);
    assert l in h;
  }

  lemma NumbersAreNotDenied(lists: Lists, h: Host, allow: set<Host>)
    requires Lettered(lists) && 1 <= |h| <= 3 && forall l :: l in h ==> Digits(l)
    ensures Classify(lists, h, allow) != Deny
  {
    NumbersAreShort(h);
    assert forall l :: l in h ==> LabelOk(l);
    if OnDenylist(lists, h) { DenylistIsLettered(lists, h); }
    assert h[|h| - 1] in h;
  }

  lemma AddressOfParent(h: Host, l: string)
    requires IsIpv6([l] + h) && ':' !in l
    ensures IsIpv6(h)
  {
    var sub := [l] + h;
    var x :| x in sub && ':' in x;
    assert x in h;
    forall j, i | 0 <= j < |h| && 0 <= i < |h[j]| ensures InIpv6(h, j, i) {
      assert sub[j + 1] == h[j] && InIpv6(sub, j + 1, i);
    }
  }

  lemma DenylistOfSub(lists: Lists, h: Host, l: string)
    requires OnDenylist(lists, h)
    ensures OnDenylist(lists, [l] + h)
  {
    var s :| HasSuffix(h, s) && (s in lists.deny || GoogleCountry(s));
    var sub := [l] + h;
    assert sub[|sub| - |s|..] == h[|h| - |s|..];
    assert HasSuffix(sub, s);
  }

  /** A subdomain of a denied host is denied, unless it reads as an IPv6 address; then it is not. */
  lemma DenyOfSubdomain(lists: Lists, h: Host, l: string, allow: set<Host>)
    requires Lettered(lists) && h != [] && Classify(lists, h, allow) == Deny
    ensures Classify(lists, [l] + h, allow) == Deny <==> !IsIpv6([l] + h)
  {
    hide OnDenylist, IsIpv6, Lettered, Listed, Suspicious, LabelOk;
    var sub := [l] + h;
    LengthOfSub(h, l);
    if IsIpv4(sub) {
      assert forall x :: x in h ==> x in sub;
      NumbersAreNotDenied(lists, h, allow);
    }
    if !WellFormed(h) {
      assert forall x :: x in h ==> x in sub;
    } else if OnDenylist(lists, h) {
      DenylistOfSub(lists, h, l);
    } else {
      assert sub[|sub| - 1] == h[|h| - 1] && (|h| >= 2 ==> sub[|sub| - 2] == h[|h| - 2]);
    }
  }

  /** Deny is closed under subdomains: a label has no colon. */
  lemma DenyCoversSubdomains(lists: Lists, h: Host, l: string, allow: set<Host>)
    requires Lettered(lists) && h != [] && ':' !in l && Classify(lists, h, allow) == Deny
    ensures Classify(lists, [l] + h, allow) == Deny
  {
    DenyOfSubdomain(lists, h, l, allow);
    if IsIpv6([l] + h) { AddressOfParent(h, l); }
  }

  /** With a colon in the label the closure can fail: what follows a malformed, denied host may be an address, which is held. */
  lemma ColonEscapesDeny(lists: Lists)
    ensures Classify(lists, ["a]"], {}) == Deny && Classify(lists, ["::1", "a]"], {}) == Hold
  {
    assert ["a]"][0] in ["a]"] && "a]"[1] == ']' && !LabelOk("a]");
    assert forall l :: l in ["a]"] ==> l == "a]";
    assert ["::1", "a]"][0] in ["::1", "a]"] && "::1"[0] == ':';
  }

  // ── what the extension syncs ──

  datatype Mark = On | Off

  /** A decision of the extension; `flagged`: the owner re-allowed what the policy would not sync. */
  datatype Sync = Sync(sync: bool, flagged: bool)

  /** Some strict parent of two or more labels is blocked. A re-allowed parent counts for nothing. */
  predicate ParentBlocked(overrides: map<Host, Mark>, h: Host) {
    exists i :: 1 <= i < |h| - 1 && h[i..] in overrides && overrides[h[i..]] == Off
  }

  /** The override in effect: the host's own, else an inherited block. */
  function EffectiveOverride(overrides: map<Host, Mark>, h: Host): Option<Mark> {
    if h in overrides then Some(overrides[h]) else if ParentBlocked(overrides, h) then Some(Off) else None
  }

  ghost function Decide(lists: Lists, overrides: map<Host, Mark>, h: Host): Sync {
    var plain := Classify(lists, h, {}) == Allow;
    match EffectiveOverride(overrides, h)
    case Some(Off) => Sync(false, false)
    case Some(On) => Sync(true, !plain)
    case None => Sync(plain, false)
  }

  /** A cookie syncs when its host does and, if it is partitioned, its top-level site's host does. */
  ghost function CookieDecision(lists: Lists, overrides: map<Host, Mark>, h: Host, site: Option<Host>): Sync {
    var own := Decide(lists, overrides, h);
    if !own.sync || site.None? then own
    else
      var top := Decide(lists, overrides, site.value);
      if top.sync then Sync(true, own.flagged || top.flagged) else Sync(false, false)
  }

  /** What the owner decided on a host decides: a re-allowed one syncs, flagged if the policy alone would not sync it; a blocked one does
      not, and blocks those under it that the owner did not decide on, but for a parent of one label; else the policy decides. */
  lemma OverridesDecide(lists: Lists, overrides: map<Host, Mark>, h: Host)
    ensures h in overrides && overrides[h] == On ==> Decide(lists, overrides, h) == Sync(true, Classify(lists, h, {}) != Allow)
    ensures h in overrides && overrides[h] == Off ==> Decide(lists, overrides, h) == Sync(false, false)
    ensures h !in overrides ==>
      Decide(lists, overrides, h) ==
        Sync(Classify(lists, h, {}) == Allow && !(exists p :: p in overrides && overrides[p] == Off && |p| >= 2 && HasSuffix(h, p)), false)
  {
    hide Classify;
    assert h[0..] == h;
    if p :| p in overrides && overrides[p] == Off && |p| >= 2 && HasSuffix(h, p) && h !in overrides {
      assert h[|h| - |p|..] == p;
    }
  }

  /** A cookie syncs exactly when its host does and, if it is partitioned, its top-level site's host does too; it is flagged if either is. */
  lemma BothDecide(lists: Lists, overrides: map<Host, Mark>, h: Host, site: Option<Host>)
    ensures var d, own := CookieDecision(lists, overrides, h, site), Decide(lists, overrides, h);
      if site.None? then d == own
      else
        var top := Decide(lists, overrides, site.value);
        (d.sync <==> own.sync && top.sync) && (d.flagged <==> d.sync && (own.flagged || top.flagged))
  {
    hide Classify;
  }

  // ── what the broker accepts ──

  /** The policy allows the cookie's host and, if it is partitioned, its top-level site's host. */
  ghost predicate PolicyAllows(lists: Lists, h: Host, site: Option<Host>, allow: set<Host>) {
    Classify(lists, h, allow) == Allow && (site.Some? ==> Classify(lists, site.value, allow) == Allow)
  }

  ghost predicate Admits(lists: Lists, h: Host, site: Option<Host>, flagged: bool, allow: set<Host>) {
    flagged || PolicyAllows(lists, h, site, allow)
  }

  /** What the broker asks of a removal of a cookie it does not manage: the always-allow list does not count. */
  ghost predicate AdmitsRemoval(lists: Lists, h: Host, site: Option<Host>, flagged: bool) {
    flagged || PolicyAllows(lists, h, site, {})
  }

  /** The broker's second check refuses nothing the extension syncs, whatever its always-allow list is, and no removal of it. */
  lemma SyncedIsAdmitted(lists: Lists, overrides: map<Host, Mark>, h: Host, site: Option<Host>, allow: set<Host>)
    requires CookieDecision(lists, overrides, h, site).sync
    ensures
      var flagged := CookieDecision(lists, overrides, h, site).flagged;
      Admits(lists, h, site, flagged, allow) && AdmitsRemoval(lists, h, site, flagged)
  {
    hide Classify, Covers;
    ListOnlyLiftsHolds(lists, h, allow);
    if site.Some? { ListOnlyLiftsHolds(lists, site.value, allow); }
  }

  /** The flag marks exactly the synced cookies the policy alone would not sync. */
  lemma FlagMarksReallowed(lists: Lists, overrides: map<Host, Mark>, h: Host, site: Option<Host>)
    requires CookieDecision(lists, overrides, h, site).sync
    ensures CookieDecision(lists, overrides, h, site).flagged <==> !PolicyAllows(lists, h, site, {})
  {
    hide Classify;
  }

  /** A block reaches every subdomain the owner did not decide on by itself, a re-allow none. */
  lemma BlockIsInherited(lists: Lists, overrides: map<Host, Mark>, parent: Host, above: Host)
    requires above != [] && |parent| >= 2 && parent in overrides && overrides[parent] == Off
    requires above + parent !in overrides
    ensures !Decide(lists, overrides, above + parent).sync
  {
    hide Classify;
    assert (above + parent)[|above|..] == parent;
  }
}
