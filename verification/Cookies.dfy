// The cookie records of the bridge: what Storage.setCookies takes (Param), the
// key Chromium stores a cookie under, and the twin that deletes it
// (src/cookie-bridge/cdp-cookies.js).
module Cookies {

  datatype Option<+T> = None | Some(value: T)

  datatype SameSite = Unset | Lax | Strict | NoRestriction

  datatype Partition = Partition(topLevelSite: string, crossSiteAncestor: bool)

  /** A CDP CookieParam. `expires` is in seconds; None is a session cookie. */
  datatype Param = Param(
    name: string, value: string, url: string, domain: Option<string>, path: string,
    secure: bool, httpOnly: bool, sameSite: SameSite, expires: Option<real>, partition: Option<Partition>)

  type Key = string

  /** A Param without its value or expiry: what the state file keeps. */
  function IdentityOf(p: Param): Param {
    p.(value := "", expires := None)
  }

  /** The same cookie, already expired: storing it deletes the stored one. */
  function ExpireParam(p: Param): Param {
    p.(value := "", expires := Some(1.0))
  }

  /** Has the cookie's expiry passed at `now` (milliseconds)? */
  predicate IsExpired(p: Param, now: nat) {
    p.expires.Some? && p.expires.value * 1000.0 <= now as real
  }

  /** The first millisecond at which the expiry has passed. */
  function Deadline(expires: real): int {
    -((-(expires * 1000.0)).Floor)
  }

  lemma ExpiresAtDeadline(p: Param, now: int)
    requires now >= 0
    ensures IsExpired(p, now) <==> p.expires.Some? && Deadline(p.expires.value) <= now
  {
    if p.expires.Some? {
      var x := p.expires.value * 1000.0;
      assert ((-x).Floor) as real <= -x < ((-x).Floor) as real + 1.0;
    }
  }

  // ── maps by keys ──

  ghost predicate Tabulates<K, V>(m: map<K, V>, ks: set<K>, f: K --> V)
    requires forall k :: k in ks ==> f.requires(k)
  {
    m.Keys == ks && forall k :: k in ks ==> m[k] == f(k)
  }

  /** The map from each of these keys to what f gives for it. */
  ghost function MapOf<K(!new), V>(ks: set<K>, f: K --> V): (m: map<K, V>)
    requires forall k :: k in ks ==> f.requires(k)
    ensures m.Keys == ks && forall k :: k in ks ==> m[k] == f(k)
  {
    assert Tabulates(map k | k in ks :: f(k), ks, f);
    var m: map<K, V> :| Tabulates(m, ks, f);
    m
  }

  function Restrict<V>(m: map<Key, V>, ks: set<Key>): map<Key, V> {
    m - (m.Keys - ks)
  }
}
