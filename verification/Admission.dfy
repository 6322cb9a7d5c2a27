// What the importer takes of a message before it changes anything
// (src/cookie-bridge/importer.js full, delta, _admit, _verdict).
module Admission {
  import opened Cookies
  import opened ImporterState
  import opened ImporterClass
  import opened Policy
  import opened JustifiedWrites

  /** `allows`: the policy's verdict on the cookie's host and its partition's site, with the owner's list. */
  ghost predicate IsVerdict(o: Owner, allow: set<Host>, allows: Wire -> bool) {
    forall w :: allows(w) <==> PolicyAllows(o.lists, w.host, w.site, allow)
  }

  lemma ItemsThen(o: Owner, cookies: seq<Wire>, w: Wire, now: nat)
    ensures Items(o, cookies + [w], now) ==
            if AcceptsSet(o, w) && !IsExpired(w.param, now) then Items(o, cookies, now)[w.key := w.param] else Items(o, cookies, now)
  {
    assert (cookies + [w])[..|cookies|] == cookies;
  }

  /** The cookies of a batch to sync, in order: admitted and unexpired. */
  method AcceptCookies(ghost o: Owner, cookies: seq<Wire>, allows: Wire -> bool, now: nat) returns (items: seq<(Key, Param)>)
    requires IsVerdict(o, o.allow, allows)
    ensures ByKey(items) == Items(o, cookies, now)
  {
    hide PolicyAllows, Items, ByKey;
    items := [];
    NothingAccepted(o, now);
    for i := 0 to |cookies|
      invariant ByKey(items) == Items(o, cookies[..i], now)
    {
      var w := cookies[i];
      assert cookies[..i + 1] == cookies[..i] + [w];
      ItemsThen(o, cookies[..i], w, now);
      ByKeyThen(items, w.key, w.param);
      if (allows(w) || w.flagged) && !IsExpired(w.param, now) {
        items := items + [(w.key, w.param)];
      }
    }
    assert cookies[..|cookies|] == cookies;
  }

  lemma NothingAccepted(o: Owner, now: nat)
    ensures ByKey([]) == Items(o, [], now)
  {
  }

  lemma ByKeyThen(items: seq<(Key, Param)>, k: Key, p: Param)
    ensures ByKey(items + [(k, p)]) == ByKey(items)[k := p]
  {
    assert (items + [(k, p)])[..|items|] == items;
  }

  lemma ChangesThen(o: Owner, managed: set<Key>, changes: seq<WireChange>, ch: WireChange, now: nat)
    ensures
      var w, removed := ch.cookie, ch.removed || IsExpired(ch.cookie.param, now);
      Changes(o, managed, changes + [ch], now) ==
      if (if removed then AcceptsRemoval(o, managed, w) else AcceptsSet(o, w))
      then Changes(o, managed, changes, now)[w.key := Change(removed, w.param)] else Changes(o, managed, changes, now)
  {
    assert (changes + [ch])[..|changes|] == changes;
  }

  /** The changes of a delta to make, in order. A removal is asked less: the key is managed, or the policy allows it without the list. */
  method AcceptChanges(ghost o: Owner, managed: set<Key>, changes: seq<WireChange>, allows: Wire -> bool, allowsPlain: Wire -> bool, now: nat)
    returns (list: seq<(Key, Change)>)
    requires IsVerdict(o, o.allow, allows) && IsVerdict(o, {}, allowsPlain)
    ensures LastPerKey(list) == Changes(o, managed, changes, now)
  {
    hide PolicyAllows, Changes, LastPerKey;
    list := [];
    NothingChanged(o, managed, now);
    for i := 0 to |changes|
      invariant LastPerKey(list) == Changes(o, managed, changes[..i], now)
    {
      var ch := changes[i];
      var w, removed := ch.cookie, ch.removed || IsExpired(ch.cookie.param, now);
      assert changes[..i + 1] == changes[..i] + [ch];
      ChangesThen(o, managed, changes[..i], ch, now);
      LastThen(list, w.key, Change(removed, w.param));
      var taken := if removed then w.key in managed || w.flagged || allowsPlain(w) else allows(w) || w.flagged;
      if taken { list := list + [(w.key, Change(removed, w.param))]; }
    }
    assert changes[..|changes|] == changes;
  }

  lemma NothingChanged(o: Owner, managed: set<Key>, now: nat)
    ensures LastPerKey([]) == Changes(o, managed, [], now)
  {
  }

  lemma LastThen(list: seq<(Key, Change)>, k: Key, ch: Change)
    ensures LastPerKey(list + [(k, ch)]) == LastPerKey(list)[k := ch]
  {
    assert (list + [(k, ch)])[..|list|] == list;
  }

  // ── nothing accepted is left out ──

  ghost predicate TakesCookie(o: Owner, w: Wire, now: nat) {
    AcceptsSet(o, w) && !IsExpired(w.param, now)
  }

  /** The last accepted, unexpired cookie of a key is synced at its value. */
  lemma {:induction false} LastCookieIsTaken(o: Owner, cookies: seq<Wire>, now: nat, i: nat)
    requires i < |cookies| && TakesCookie(o, cookies[i], now)
    requires forall j :: i < j < |cookies| ==> !(TakesCookie(o, cookies[j], now) && cookies[j].key == cookies[i].key)
    ensures var m := Items(o, cookies, now); cookies[i].key in m && m[cookies[i].key] == cookies[i].param
    decreases |cookies|
  {
    hide AcceptsSet, IsExpired;
    var n := |cookies| - 1;
    if i < n {
      assert cookies[..n][i] == cookies[i];
      LastCookieIsTaken(o, cookies[..n], now, i);
    }
  }

  /** The broker takes the change: a set it accepts, or a removal, asked for or by expiry, that it accepts. */
  ghost predicate TakesChange(o: Owner, managed: set<Key>, ch: WireChange, now: nat) {
    if ch.removed || IsExpired(ch.cookie.param, now) then AcceptsRemoval(o, managed, ch.cookie) else AcceptsSet(o, ch.cookie)
  }

  /** The last accepted change of a key is made, a set of an expired cookie as a removal. */
  lemma {:induction false} LastChangeIsTaken(o: Owner, managed: set<Key>, changes: seq<WireChange>, now: nat, i: nat)
    requires i < |changes| && TakesChange(o, managed, changes[i], now)
    requires forall j :: i < j < |changes| ==> !(TakesChange(o, managed, changes[j], now) && changes[j].cookie.key == changes[i].cookie.key)
    ensures var m, ch := Changes(o, managed, changes, now), changes[i];
      ch.cookie.key in m && m[ch.cookie.key] == Change(ch.removed || IsExpired(ch.cookie.param, now), ch.cookie.param)
    decreases |changes|
  {
    hide AcceptsSet, AcceptsRemoval, IsExpired;
    var n := |changes| - 1;
    if i < n {
      assert changes[..n][i] == changes[i];
      LastChangeIsTaken(o, managed, changes[..n], now, i);
    }
  }
}
