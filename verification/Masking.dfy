// Which cookies of an export have their value hidden (src/cookie-bridge/importer.js
// managedMatcher).
module Masking {
  import opened Cookies
  import opened ImporterState
  import opened BraveReplication
  import opened ReplicationInvariant
  import opened ReplicationRuns
  import opened ReplicationTheorems
  import opened CookieKeys
  import opened Text

  /** The keys the matcher is built from. */
  ghost function KnownKeys(imp: Importer): set<Key> {
    imp.seen.Keys + imp.managed.Keys + imp.pending.Keys + imp.unflushed.Keys
  }

  ghost predicate Masked(imp: Importer, e: Exported) {
    exists k :: k in KnownKeys(imp) && |Split(k, NUL)| >= 3 && KeyEntry(k) == ExportEntry(e)
  }

  /** On every run, a value of the bridge that is in Brave, or on its way there, is hidden in the export of that cookie. */
  lemma BridgeValuesAreMasked(s0: Sys, t: Timing, steps: seq<Step>, s: Sys, c: Chrome, urlOk: string -> bool, e: Exported)
    requires Init(s0) && Timely(t) && Reaches(s0, t, steps, s)
    requires Map(c, urlOk).Ok? && Clean(c)
    requires LiveSomewhere(s, CookieKey(Map(c, urlOk).param)) && CookieKey(Map(c, urlOk).param) !in s.past.stranded * s.past.orphans
    requires e.name == c.name && PathOf(e) == Map(c, urlOk).param.path && NulFree(e.domain)
    requires Lower(e.domain) == Lower(StoredDomain(Map(c, urlOk).host, c.hostOnly))
    ensures Masked(s.imp, e)
  {
    hide Map, LiveSomewhere, Init, Timely, Reaches, Lower, StoredDomain, Split, Join, CookieKey, KeyEntry, ExportEntry;
    var k := CookieKey(Map(c, urlOk).param);
    EveryValueRecognised(s0, t, steps, s, k);
    MappedIs(c, urlOk);
    MaskIsExact(c, urlOk, e);
    assert k in KnownKeys(s.imp) && |Split(k, NUL)| >= 3 && KeyEntry(k) == ExportEntry(e);
  }
}
