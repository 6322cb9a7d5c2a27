// CookieImporter as the source runs it: fields updated in place, one method per
// stretch of code between two awaits. Every method does what the step of the same
// name in ImporterState says.
module ImporterClass {
  import opened Cookies
  import opened ImporterState
  import K = CookieKeys

  // ── the cookie maps, one key at a time ──

  datatype Maps = Maps(snapshot: map<Key, Param>, managed: map<Key, Param>, seen: map<Key, Param>,
                       pending: map<Key, Tomb>, unflushed: map<Key, Held>, dirty: bool)

  /** What the maps hold about one key. */
  datatype Slot = Slot(snapshot: Option<Param>, managed: Option<Param>, seen: Option<Param>, pending: Option<Tomb>,
      unflushed: Option<Held>)

  function MapsOf(s: Importer): Maps {
    Maps(s.snapshot, s.managed, s.seen, s.pending, s.unflushed, s.dirty)
  }

  function Get<V>(m: map<Key, V>, k: Key): Option<V> {
    if k in m then Some(m[k]) else None
  }

  function At(m: Maps, k: Key): Slot {
    Slot(Get(m.snapshot, k), Get(m.managed, k), Get(m.seen, k), Get(m.pending, k), Get(m.unflushed, k))
  }

  lemma SameMap<V>(m: map<Key, V>, n: map<Key, V>)
    requires forall k :: Get(m, k) == Get(n, k)
    ensures m == n
  {
    forall k ensures (k in m <==> k in n) && (k in m ==> m[k] == n[k]) {
      assert Get(m, k) == Get(n, k);
    }
  }

  lemma SameEverywhere(m: Maps, n: Maps)
    requires forall k :: At(m, k) == At(n, k)
    ensures m == n.(dirty := m.dirty)
  {
    forall k ensures Get(m.snapshot, k) == Get(n.snapshot, k) && Get(m.managed, k) == Get(n.managed, k) &&
        Get(m.seen, k) == Get(n.seen, k)
                  && Get(m.pending, k) == Get(n.pending, k) && Get(m.unflushed, k) == Get(n.unflushed, k) {
      assert At(m, k) == At(n, k);
    }
    hide Get, At;
    SameMap(m.snapshot, n.snapshot);
    SameMap(m.managed, n.managed);
    SameMap(m.seen, n.seen);
    SameMap(m.pending, n.pending);
    SameMap(m.unflushed, n.unflushed);
  }

  // ── syncing and forgetting ──

  /** _setSynced: the bridge manages it from now on, and no tombstone may undo it. */
  function SyncedOne(m: Maps, k: Key, p: Param): Maps {
    Maps(m.snapshot[k := p], m.managed[k := IdentityOf(p)], m.seen[k := IdentityOf(p)], m.pending - {k}, m.unflushed - {k},
         m.dirty || k !in m.managed || m.managed[k] != IdentityOf(p) || k in m.pending || k in m.unflushed)
  }

  predicate Unclean(at: Slot, p: Param) {
    at.managed != Some(IdentityOf(p)) || at.pending.Some? || at.unflushed.Some?
  }

  function SyncedSlot(p: Param): Slot {
    Slot(Some(p), Some(IdentityOf(p)), Some(IdentityOf(p)), None, None)
  }

  predicate Deletable(at: Slot, given: Option<Param>) {
    at.managed.Some? || at.snapshot.Some? || given.Some?
  }

  /** The deletion of a key: of its managed identity, else the snapshot's, else the change's. */
  function TombOf(at: Slot, given: Option<Param>, stamp: nat): Tomb
    requires Deletable(at, given)
  {
    Tomb(ExpireParam(if at.managed.Some? then at.managed.value
                     else IdentityOf(if at.snapshot.Some? then at.snapshot.value else given.value)), stamp)
  }

  /** _forget: delete it from Brave (now or at the next launch) and stop managing it. */
  function ForgotOne(m: Maps, k: Key, given: Option<Param>, stamp: nat): Maps
    requires Deletable(At(m, k), given)
  {
    Maps(m.snapshot - {k}, m.managed - {k}, m.seen, m.pending[k := TombOf(At(m, k), given, stamp)], m.unflushed - {k}, true)
  }

  function ForgotSlot(at: Slot, given: Option<Param>, stamp: nat): Slot
    requires Deletable(at, given)
  {
    Slot(None, None, at.seen, Some(TombOf(at, given, stamp)), None)
  }

  lemma SyncedOneAt(m: Maps, x: Key, p: Param, k: Key)
    ensures At(SyncedOne(m, x, p), k) == if k == x then SyncedSlot(p) else At(m, k)
  {
  }

  lemma ForgotOneAt(m: Maps, x: Key, given: Option<Param>, stamp: nat, k: Key)
    requires Deletable(At(m, x), given)
    ensures At(ForgotOne(m, x, given, stamp), k) == if k == x then ForgotSlot(At(m, k), given, stamp) else At(m, k)
  {
    var t := TombOf(At(m, x), given, stamp);
    hide TombOf;
    assert m.pending[x := t][x] == t;
  }

  /** m1 is m with `sets` synced. */
  ghost predicate SyncedAll(m: Maps, m1: Maps, sets: map<Key, Param>) {
    && (forall k :: At(m1, k) == if k in sets then SyncedSlot(sets[k]) else At(m, k))
    && (m.dirty || (exists k :: k in sets && Unclean(At(m, k), sets[k])) ==> m1.dirty)
  }

  /** Syncing these changes something the state file holds. */
  ghost predicate Dirties(m: Maps, sets: map<Key, Param>) {
    m.dirty || exists k :: k in sets && Unclean(At(m, k), sets[k])
  }

  lemma OneMoreDirties(m: Maps, m1: Maps, sets: map<Key, Param>, k: Key, p: Param)
    requires SyncedAll(m, m1, sets) && k !in sets && (m1.dirty ==> Dirties(m, sets))
    ensures SyncedOne(m1, k, p).dirty ==> Dirties(m, sets[k := p])
  {
    var more := sets[k := p];
    assert SyncedOne(m1, k, p).dirty <==> m1.dirty || Unclean(At(m1, k), p);
    assert At(m1, k) == At(m, k);
    hide SyncedOne, At, Unclean;
    if m1.dirty && !m.dirty {
      var x :| x in sets && Unclean(At(m, x), sets[x]);
      assert x in more && more[x] == sets[x];
    }
    assert Unclean(At(m, k), p) ==> k in more && Unclean(At(m, k), more[k]);
  }

  /** m1 is m with `gone`, managed keys of m, forgotten. */
  ghost predicate ForgotAll(m: Maps, m1: Maps, gone: set<Key>, stamp: nat)
    requires gone <= m.managed.Keys
  {
    && (forall k :: At(m1, k) == if k in gone then assert At(m, k).managed.Some?; ForgotSlot(At(m, k), None, stamp) else At(m, k))
    && (m1.dirty <==> m.dirty || gone != {})
  }

  lemma OneMoreSynced(m: Maps, m1: Maps, sets: map<Key, Param>, k: Key, p: Param)
    requires SyncedAll(m, m1, sets)
    ensures SyncedAll(m, SyncedOne(m1, k, p), sets[k := p])
  {
    var m2, more := SyncedOne(m1, k, p), sets[k := p];
    assert m2.dirty <==> m1.dirty || Unclean(At(m1, k), p);
    hide SyncedOne, At;
    forall x ensures At(m2, x) == if x in more then SyncedSlot(more[x]) else At(m, x) {
      SyncedOneAt(m1, k, p, x);
    }
    if x :| x in more && Unclean(At(m, x), more[x]) && !m1.dirty {
      assert x == k;
      assert k in sets ==> !Unclean(At(m, k), sets[k]);
    }
  }

  lemma NothingForgotten(m: Maps, stamp: nat)
    ensures ForgotAll(m, m, {}, stamp)
  {
  }

  lemma OneMoreForgotten(m: Maps, m1: Maps, gone: set<Key>, k: Key, stamp: nat)
    requires gone <= m.managed.Keys && ForgotAll(m, m1, gone, stamp) && k in m.managed && k !in gone
    ensures k in m1.managed && Deletable(At(m1, k), None) && ForgotAll(m, ForgotOne(m1, k, None, stamp), gone + {k}, stamp)
  {
    assert At(m, k).managed.Some?;
    var m2 := ForgotOne(m1, k, None, stamp);
    assert m2.dirty;
    hide ForgotOne, At, ForgotSlot;
    forall x ensures At(m2, x) == if x in gone + {k} then assert At(m, x).managed.Some?; ForgotSlot(At(m, x), None,
        stamp) else At(m, x) {
      ForgotOneAt(m1, k, None, stamp, x);
    }
  }

  lemma SetSyncedAt(s: Importer, sets: map<Key, Param>, k: Key)
    ensures At(MapsOf(SetSynced(s, sets)), k) == if k in sets then SyncedSlot(sets[k]) else At(MapsOf(s), k)
  {
    assert Identities(sets).Keys == sets.Keys;
  }

  lemma SameTomb(s: Importer, given: map<Key, Param>, k: Key)
    requires k in s.managed || k in s.snapshot || k in given
    ensures TombOf(At(MapsOf(s), k), Get(given, k), s.stamp) == Tomb(ExpireParam(DeletedIdentity(s, k, given)), s.stamp)
  {
  }

  lemma ForgetPendingAt(s: Importer, gone: set<Key>, given: map<Key, Param>, k: Key)
    requires forall x :: x in gone ==> x in s.managed || x in s.snapshot || x in given
    ensures Get(Forget(s, gone, given).pending, k)
         == if k in gone then Some(TombOf(At(MapsOf(s), k), Get(given, k), s.stamp)) else Get(s.pending, k)
  {
    if k in gone { SameTomb(s, given, k); }
    hide DeletedIdentity, TombOf;
  }

  lemma ForgetElsewhere(s: Importer, gone: set<Key>, given: map<Key, Param>)
    requires forall x :: x in gone ==> x in s.managed || x in s.snapshot || x in given
    ensures var f := Forget(s, gone, given);
            && f.snapshot == s.snapshot - gone && f.managed == s.managed - gone && f.unflushed == s.unflushed - gone &&
                f.seen == s.seen
  {
    hide DeletedIdentity;
  }

  lemma ForgetAt(s: Importer, gone: set<Key>, given: map<Key, Param>, k: Key)
    requires forall x :: x in gone ==> x in s.managed || x in s.snapshot || x in given
    ensures At(MapsOf(Forget(s, gone, given)), k) == if k in gone then ForgotSlot(At(MapsOf(s), k), Get(given, k),
        s.stamp) else At(MapsOf(s), k)
  {
    hide Forget, TombOf;
    ForgetPendingAt(s, gone, given, k);
    ForgetElsewhere(s, gone, given);
  }

  // ── a full-sync batch ──

  /** The cookies of a batch by key; a later one replaces an earlier one. */
  ghost function ByKey(items: seq<(Key, Param)>): map<Key, Param> {
    if items == [] then map[] else ByKey(items[..|items| - 1])[items[|items| - 1].0 := items[|items| - 1].1]
  }

  /** The cookies of a batch synced one after the other, but for the overtaken ones. */
  ghost function SetEach(m: Maps, items: seq<(Key, Param)>, overtaken: set<Key>): Maps {
    if items == [] then m
    else
      var m1, last := SetEach(m, items[..|items| - 1], overtaken), items[|items| - 1];
      if last.0 in overtaken then m1 else SyncedOne(m1, last.0, last.1)
  }

  lemma SetOneMore(m: Maps, items: seq<(Key, Param)>, k: Key, p: Param, overtaken: set<Key>)
    ensures var m1 := SetEach(m, items, overtaken);
      SetEach(m, items + [(k, p)], overtaken) == if k in overtaken then m1 else SyncedOne(m1, k, p)
  {
    assert (items + [(k, p)])[..|items|] == items;
  }

  lemma ByKeyPut(items: seq<(Key, Param)>, k: Key, p: Param, but: set<Key>)
    ensures ByKey(items + [(k, p)]) - but == if k in but then ByKey(items) - but else (ByKey(items) - but)[k := p]
  {
    assert (items + [(k, p)])[..|items|] == items;
  }

  lemma NotOvertakenIs(s: Importer, id: nat, items: map<Key, Param>)
    ensures NotOvertaken(s, id, items) == items - StagingOf(s, id).overtaken
  {
  }

  /** Fields other than the maps that a batch changes. */
  lemma FullRest(s: Importer, id: nat, items: map<Key, Param>, last: bool, up: bool)
    ensures
      var f := Full(s, id, items, last, up);
      var keys := NotOvertaken(s, id, items).Keys;
      && f.staging == (if last then s.staging - {id} else s.staging[id := Staging(StagingOf(s, id).keys + keys,
          StagingOf(s, id).overtaken)])
      && f.stamp == (if last then s.stamp + 1 else s.stamp)
      && f.queue == (if !up || (keys == {} && f.pending == map[]) then s.queue else s.queue + [ApplyJob(keys)])
  {
    hide NotOvertaken, StagingOf, Identities;
  }

  lemma SetSyncedDirty(s: Importer, sets: map<Key, Param>)
    ensures SetSynced(s, sets).dirty <==> Dirties(MapsOf(s), sets)
  {
    hide Identities, Unclean;
    forall k | k in sets
      ensures Unclean(At(MapsOf(s), k), sets[k]) <==> k !in s.managed || s.managed[k] != IdentityOf(sets[k]) || k in s.pending || k in s.unflushed
    {
      UncleanAt(s, k, sets[k]);
    }
    if SyncDirties(s, sets) {
      var k :| k in sets && (k !in s.managed || s.managed[k] != IdentityOf(sets[k]) || k in s.pending || k in s.unflushed);
      assert Unclean(At(MapsOf(s), k), sets[k]);
    }
  }

  lemma UncleanAt(s: Importer, k: Key, p: Param)
    ensures Unclean(At(MapsOf(s), k), p) <==> k !in s.managed || s.managed[k] != IdentityOf(p) || k in s.pending || k in s.unflushed
  {
  }

  lemma SetSyncedMaps(s: Importer, sets: map<Key, Param>, m1: Maps)
    requires SyncedAll(MapsOf(s), m1, sets)
    ensures var m := MapsOf(SetSynced(s, sets));
            m1 == m.(dirty := m1.dirty) && (m.dirty ==> m1.dirty) &&
                ((m1.dirty ==> Dirties(MapsOf(s), sets)) ==> m1.dirty == m.dirty)
  {
    hide At, Unclean, SyncedSlot, SetSynced;
    SetSyncedDirty(s, sets);
    forall k ensures At(m1, k) == At(MapsOf(SetSynced(s, sets)), k) {
      SetSyncedAt(s, sets, k);
    }
    SameEverywhere(m1, MapsOf(SetSynced(s, sets)));
  }

  lemma ForgetMaps(s: Importer, m1: Maps, m2: Maps, gone: set<Key>)
    requires gone <= m1.managed.Keys && m1 == MapsOf(s).(dirty := m1.dirty) && (s.dirty ==> m1.dirty)
    requires ForgotAll(m1, m2, gone, s.stamp)
    ensures var m := MapsOf(Forget(s, gone, map[]));
            m2 == m.(dirty := m2.dirty) && (m.dirty ==> m2.dirty) && (m1.dirty == s.dirty ==> m2.dirty == m.dirty)
  {
    forall k ensures At(m2, k) == At(MapsOf(Forget(s, gone, map[])), k) {
      ForgetAt(s, gone, map[], k);
      assert At(m1, k) == At(MapsOf(s), k);
      hide Forget, ForgotSlot, At;
    }
    hide At, ForgotSlot;
    SameEverywhere(m2, MapsOf(Forget(s, gone, map[])));
  }

  lemma FullOpenIs(s: Importer, id: nat, items: map<Key, Param>, up: bool)
    ensures MapsOf(Full(s, id, items, false, up)) == MapsOf(SetSynced(s, NotOvertaken(s, id, items)))
  {
    hide NotOvertaken, StagingOf, Identities, SetSynced;
  }

  lemma FullLastIs(s: Importer, id: nat, items: map<Key, Param>, up: bool)
    ensures
      var s1 := SetSynced(s, NotOvertaken(s, id, items));
      && LeftOut(s, id, items) <= s1.managed.Keys
      && MapsOf(Full(s, id, items, true, up)) == MapsOf(Forget(s1.(staging := s1.staging - {id}), LeftOut(s, id, items), map[]))
  {
    var s1 := SetSynced(s, NotOvertaken(s, id, items));
    assert LeftOut(s, id, items) <= s1.managed.Keys;
    hide NotOvertaken, StagingOf, Forget, Identities, SetSynced, LeftOut;
  }

  /** Full, in the two stretches its maps come from. */
  lemma FullIs(s: Importer, id: nat, items: map<Key, Param>, last: bool, up: bool)
    ensures
      var s1 := SetSynced(s, NotOvertaken(s, id, items));
      && LeftOut(s, id, items) == s1.managed.Keys - (StagingOf(s, id).keys + NotOvertaken(s, id, items).Keys)
      && MapsOf(Full(s, id, items, last, up)) == (if last then MapsOf(Forget(s1.(staging := s1.staging - {id}),
          LeftOut(s, id, items), map[])) else MapsOf(s1))
      && s1.staging == s.staging && s1.stamp == s.stamp
  {
    hide NotOvertaken, StagingOf, Forget, Identities, Full;
    if last { FullLastIs(s, id, items, up); } else { FullOpenIs(s, id, items, up); }
  }

  /** Syncing a batch and then forgetting what the full sync left out is the step Full. */
  lemma FullMaps(s: Importer, id: nat, items: map<Key, Param>, last: bool, up: bool, m1: Maps, m2: Maps)
    requires SyncedAll(MapsOf(s), m1, NotOvertaken(s, id, items))
    requires if last then ForgotAll(m1, m2, m1.managed.Keys - (StagingOf(s, id).keys + NotOvertaken(s, id,
        items).Keys), s.stamp) else m2 == m1
    ensures var f := Full(s, id, items, last, up);
            && m2 == MapsOf(f).(dirty := m2.dirty) && (f.dirty ==> m2.dirty)
            && ((m1.dirty ==> Dirties(MapsOf(s), NotOvertaken(s, id, items))) ==> m2.dirty == f.dirty)
  {
    hide SetSynced, NotOvertaken, StagingOf, SyncedAll, ForgotAll, LeftOut, Forget, Full, Dirties;
    SetSyncedMaps(s, NotOvertaken(s, id, items), m1);
    FullIs(s, id, items, last, up);
    if last {
      ForgetMaps(SetSynced(s, NotOvertaken(s, id, items)).(staging := s.staging - {id}), m1, m2, LeftOut(s, id, items));
    }
  }

  /** The last batch leaves the state dirty if its cookies did, or if anything was left out. */
  lemma LastDirties(s: Importer, id: nat, items: map<Key, Param>, m1: Maps, m2: Maps)
    requires SyncedAll(MapsOf(s), m1, NotOvertaken(s, id, items))
    requires ForgotAll(m1, m2, m1.managed.Keys - (StagingOf(s, id).keys + NotOvertaken(s, id, items).Keys), s.stamp)
    ensures m2.dirty <==> m1.dirty || LeftOut(s, id, items) != {}
  {
    hide SetSynced, NotOvertaken, StagingOf, SyncedAll, LeftOut, Full, At, ForgotSlot;
    SetSyncedMaps(s, NotOvertaken(s, id, items), m1);
    FullIs(s, id, items, true, false);
  }

  // ── a delta ──

  function Changed(m: Maps, k: Key, ch: Change, stamp: nat): Maps {
    if ch.removed then ForgotOne(m, k, Some(ch.param), stamp) else SyncedOne(m, k, ch.param)
  }

  function ChangedSlot(at: Slot, ch: Change, stamp: nat): Slot {
    if ch.removed then ForgotSlot(at, Some(ch.param), stamp) else SyncedSlot(ch.param)
  }

  /** The changes of a list, made in its order. */
  ghost function AllChanged(m: Maps, list: seq<(Key, Change)>, stamp: nat): Maps {
    if list == [] then m
    else Changed(AllChanged(m, list[..|list| - 1], stamp), list[|list| - 1].0, list[|list| - 1].1, stamp)
  }

  /** The last change per key. */
  ghost function LastPerKey(list: seq<(Key, Change)>): map<Key, Change> {
    if list == [] then map[] else LastPerKey(list[..|list| - 1])[list[|list| - 1].0 := list[|list| - 1].1]
  }

  ghost predicate Distinct(list: seq<(Key, Change)>) {
    forall i, j :: 0 <= i < j < |list| ==> list[i].0 != list[j].0
  }

  lemma {:induction false} KeysOfList(list: seq<(Key, Change)>, k: Key)
    ensures k in LastPerKey(list) <==> exists i :: 0 <= i < |list| && list[i].0 == k
  {
    if list != [] {
      var n := |list| - 1;
      KeysOfList(list[..n], k);
      if i :| 0 <= i < |list| && list[i].0 == k && i < n { assert list[..n][i].0 == k; }
      if k in LastPerKey(list[..n]) {
        var i :| 0 <= i < n && list[..n][i].0 == k;
        assert list[i].0 == k;
      }
    }
  }

  lemma OneMoreChanged(m: Maps, list: seq<(Key, Change)>, i: nat, stamp: nat)
    requires i < |list| && Distinct(list)
    ensures AllChanged(m, list[..i + 1], stamp) == Changed(AllChanged(m, list[..i], stamp), list[i].0, list[i].1, stamp)
    ensures LastPerKey(list[..i + 1]) == LastPerKey(list[..i])[list[i].0 := list[i].1] && list[i].0 !in LastPerKey(list[..i])
  {
    assert list[..i + 1][..i] == list[..i];
    KeysOfList(list[..i], list[i].0);
    hide Changed;
  }

  /** A list with each key once does to a key what that key's change does. */
  lemma {:induction false} ChangesByKey(m: Maps, list: seq<(Key, Change)>, stamp: nat, k: Key)
    requires Distinct(list)
    ensures At(AllChanged(m, list, stamp), k) == if k in LastPerKey(list) then ChangedSlot(At(m, k),
        LastPerKey(list)[k], stamp) else At(m, k)
  {
    if list != [] {
      var n := |list| - 1;
      var before, x, ch := AllChanged(m, list[..n], stamp), list[n].0, list[n].1;
      ChangesByKey(m, list[..n], stamp, k);
      KeysOfList(list[..n], x);
      if ch.removed { ForgotOneAt(before, x, Some(ch.param), stamp, k); } else { SyncedOneAt(before, x, ch.param, k); }
      hide ForgotOne, SyncedOne, ForgotSlot, SyncedSlot, At;
    }
  }

  /** Anything to do makes the state dirty. */
  lemma {:induction false} ChangesDirty(m: Maps, list: seq<(Key, Change)>, stamp: nat, k: Key)
    requires Distinct(list)
    requires m.dirty || (k in LastPerKey(list) && (LastPerKey(list)[k].removed || Unclean(At(m, k), LastPerKey(list)[k].param)))
    ensures AllChanged(m, list, stamp).dirty
  {
    if list != [] {
      var n := |list| - 1;
      hide At;
      if m.dirty || k != list[n].0 {
        ChangesDirty(m, list[..n], stamp, k);
      } else {
        ChangesByKey(m, list[..n], stamp, k);
        KeysOfList(list[..n], k);
      }
    }
  }

  lemma DeltaAt(s: Importer, ch: map<Key, Change>, up: bool, k: Key)
    ensures At(MapsOf(Delta(s, ch, up)), k) == if k in ch then ChangedSlot(At(MapsOf(s), k), ch[k], s.stamp) else At(MapsOf(s), k)
  {
    var s1 := s.(staging := MapOf(s.staging.Keys, id requires id in s.staging => Touch(s.staging[id], ch)));
    var s2 := SetSynced(s1, Added(ch));
    var s3 := Forget(s2, Removed(ch).Keys, Removed(ch));
    assert MapsOf(Delta(s, ch, up)) == MapsOf(s3);
    assert MapsOf(s1) == MapsOf(s);
    assert k in Added(ch) <==> k in ch && !ch[k].removed;
    assert k in Removed(ch) <==> k in ch && ch[k].removed;
    hide SetSynced, Forget, Added, Removed, Touch, Delta, At;
    SetSyncedAt(s1, Added(ch), k);
    ForgetAt(s2, Removed(ch).Keys, Removed(ch), k);
  }

  /** Making the changes of a list is the step Delta. */
  lemma DeltaMaps(s: Importer, list: seq<(Key, Change)>, up: bool)
    requires Distinct(list)
    ensures var m, d := AllChanged(MapsOf(s), list, s.stamp), Delta(s, LastPerKey(list), up);
            m == MapsOf(d)
  {
    var m, ch := AllChanged(MapsOf(s), list, s.stamp), LastPerKey(list);
    var d := Delta(s, ch, up);
    DeltaDirty(s, list, up);
    hide At, Delta, LastPerKey, AllChanged;
    forall k ensures At(m, k) == At(MapsOf(d), k) {
      ChangesByKey(MapsOf(s), list, s.stamp, k);
      DeltaAt(s, ch, up, k);
    }
    SameEverywhere(m, MapsOf(d));
  }

  /** ... and nothing else does. */
  lemma {:induction false} DirtyChanges(m: Maps, list: seq<(Key, Change)>, stamp: nat) returns (k: Key)
    requires Distinct(list) && AllChanged(m, list, stamp).dirty && !m.dirty
    ensures k in LastPerKey(list) && (LastPerKey(list)[k].removed || Unclean(At(m, k), LastPerKey(list)[k].param))
  {
    var n := |list| - 1;
    var x, ch := list[n].0, list[n].1;
    hide At;
    if AllChanged(m, list[..n], stamp).dirty {
      k := DirtyChanges(m, list[..n], stamp);
      KeysOfList(list[..n], x);
      KeysOfList(list[..n], k);
      assert k != x;
    } else {
      k := x;
      ChangesByKey(m, list[..n], stamp, k);
      KeysOfList(list[..n], k);
      assert !ch.removed ==> Unclean(At(AllChanged(m, list[..n], stamp), k), ch.param) by { NowUnclean(AllChanged(m,
          list[..n], stamp), k, ch.param); }
    }
  }

  lemma NowUnclean(m: Maps, k: Key, p: Param)
    ensures SyncedOne(m, k, p).dirty <==> m.dirty || Unclean(At(m, k), p)
  {
  }

  /** The dirty flag of a delta, by key. */
  lemma DeltaDirtyIs(s: Importer, ch: map<Key, Change>, up: bool)
    ensures Delta(s, ch, up).dirty <==> Dirties(MapsOf(s), Added(ch)) || Removed(ch).Keys != {}
  {
    var s1 := s.(staging := MapOf(s.staging.Keys, id requires id in s.staging => Touch(s.staging[id], ch)));
    assert MapsOf(s1) == MapsOf(s);
    hide Touch, Identities, Added, Removed, Dirties, MapsOf;
    SetSyncedDirty(s1, Added(ch));
  }

  lemma DeltaDirty(s: Importer, list: seq<(Key, Change)>, up: bool)
    requires Distinct(list)
    ensures AllChanged(MapsOf(s), list, s.stamp).dirty <==> Delta(s, LastPerKey(list), up).dirty
  {
    var m, ch := MapsOf(s), LastPerKey(list);
    DeltaDirtyIs(s, ch, up);
    assert forall k :: k in Added(ch) <==> k in ch && !ch[k].removed;
    assert forall k :: k in Added(ch) ==> Added(ch)[k] == ch[k].param;
    assert forall k :: k in Removed(ch) <==> k in ch && ch[k].removed;
    hide LastPerKey, AllChanged, Added, Removed, Unclean, At, Delta;
    if s.dirty {
      ChangesDirty(m, list, s.stamp, "");
    } else if k :| k in Added(ch) && Unclean(At(m, k), Added(ch)[k]) {
      ChangesDirty(m, list, s.stamp, k);
    } else if k :| k in Removed(ch) {
      ChangesDirty(m, list, s.stamp, k);
    } else if AllChanged(m, list, s.stamp).dirty {
      var k := DirtyChanges(m, list, s.stamp);
    }
  }

  /** A JavaScript Map's delete: the list without key k. */
  function Without(list: seq<(Key, Change)>, k: Key): seq<(Key, Change)> {
    if list == [] then []
    else
      var rest := Without(list[..|list| - 1], k);
      if list[|list| - 1].0 == k then rest else rest + [list[|list| - 1]]
  }

  lemma {:induction false} WithoutIs(list: seq<(Key, Change)>, k: Key)
    requires Distinct(list)
    ensures Distinct(Without(list, k))
    ensures forall e :: e in Without(list, k) ==> e.0 != k && e in list
  {
    if list != [] {
      var n := |list| - 1;
      var rest := Without(list[..n], k);
      WithoutIs(list[..n], k);
      forall i | 0 <= i < |rest| ensures rest[i].0 != list[n].0 {
        var j :| 0 <= j < n && list[..n][j] == rest[i];
        assert list[j].0 != list[n].0;
      }
    }
  }

  lemma {:induction false} WithoutKeeps(list: seq<(Key, Change)>, k: Key)
    ensures LastPerKey(Without(list, k)) == LastPerKey(list) - {k}
  {
    if list != [] {
      var n := |list| - 1;
      var rest := Without(list[..n], k);
      WithoutKeeps(list[..n], k);
      assert (rest + [list[n]])[..|rest|] == rest;
    }
  }

  lemma LastMoved(list: seq<(Key, Change)>, k: Key, ch: Change)
    requires Distinct(list)
    ensures var l := Without(list, k) + [(k, ch)]; Distinct(l) && LastPerKey(l) == LastPerKey(list)[k := ch]
  {
    WithoutIs(list, k);
    WithoutKeeps(list, k);
    var rest := Without(list, k);
    hide Without;
    assert (rest + [(k, ch)])[..|rest|] == rest;
    forall i | 0 <= i < |rest| ensures rest[i].0 != k {
      assert rest[i] in rest;
    }
  }

  /** The last change per cookie, in the order of those changes. */
  method LastChanges(changes: seq<(Key, Change)>) returns (list: seq<(Key, Change)>)
    ensures Distinct(list) && LastPerKey(list) == LastPerKey(changes)
  {
    list := [];
    for i := 0 to |changes|
      invariant Distinct(list) && LastPerKey(list) == LastPerKey(changes[..i])
    {
      assert changes[..i + 1][..i] == changes[..i];
      LastMoved(list, changes[i].0, changes[i].1);
      list := Without(list, changes[i].0) + [changes[i]];
    }
    assert changes[..|changes|] == changes;
  }

  lemma AddedMore(ch: map<Key, Change>, k: Key, c: Change)
    requires k !in ch
    ensures Added(ch[k := c]).Keys == if c.removed then Added(ch).Keys else Added(ch).Keys + {k}
  {
  }

  lemma TouchMore(st: Staging, ch: map<Key, Change>, k: Key, c: Change)
    requires k !in ch
    ensures Touch(st, ch[k := c])
         == Staging(if c.removed then Touch(st, ch).keys - {k} else Touch(st, ch).keys + {k}, Touch(st, ch).overtaken + {k})
  {
    var more := ch[k := c];
    assert Added(more).Keys == if c.removed then Added(ch).Keys else Added(ch).Keys + {k};
    assert Removed(more).Keys == if c.removed then Removed(ch).Keys + {k} else Removed(ch).Keys;
    assert more.Keys == ch.Keys + {k};
    assert k !in Removed(ch).Keys && k !in Added(ch).Keys;
    hide Added, Removed;
    assert st.overtaken + more.Keys == st.overtaken + ch.Keys + {k};
  }

  lemma TouchNothing(st: Staging)
    ensures Touch(st, map[]) == st
  {
  }

  ghost predicate Touched(was: map<nat, Staging>, now: map<nat, Staging>, ch: map<Key, Change>) {
    now.Keys == was.Keys && forall id :: id in was ==> now[id] == Touch(was[id], ch)
  }

  lemma NothingTouched(was: map<nat, Staging>)
    ensures Touched(was, was, map[]) && Added(map[]).Keys == {}
  {
    forall id | id in was ensures Touch(was[id], map[]) == was[id] { TouchNothing(was[id]); }
  }

  lemma DeltaRest(s: Importer, ch: map<Key, Change>, up: bool, staging: map<nat, Staging>)
    requires Touched(s.staging, staging, ch)
    ensures
      var d := Delta(s, ch, up);
      && d.staging == staging && d.stamp == s.stamp + 1
      && d.queue == (if !up || (Added(ch).Keys == {} && d.pending == map[]) then s.queue else s.queue + [ApplyJob(Added(ch).Keys)])
  {
    hide Touch, Added, Removed, Identities;
  }

  ghost predicate OncePerKey(items: seq<(Key, Param)>) {
    forall i, j :: 0 <= i < j < |items| ==> items[i].0 != items[j].0
  }

  lemma {:induction false} KeysSoFar(items: seq<(Key, Param)>, i: nat)
    requires OncePerKey(items) && i < |items|
    ensures items[i].0 !in ByKey(items[..i])
  {
    NotInByKey(items[..i], items[i].0);
  }

  lemma {:induction false} NotInByKey(items: seq<(Key, Param)>, k: Key)
    requires forall i :: 0 <= i < |items| ==> items[i].0 != k
    ensures k !in ByKey(items)
  {
    if items != [] { NotInByKey(items[..|items| - 1], k); }
  }

  /** These fields are those of `step`. Unless `exact`, the state may be dirty for nothing. */
  ghost predicate Agrees(step: Importer, maps: Maps, staging: map<nat, Staging>, stamp: nat, queue: seq<Job>, exact: bool) {
    && maps == MapsOf(step).(dirty := maps.dirty) && (step.dirty ==> maps.dirty) && (exact ==> maps.dirty == step.dirty)
    && staging == step.staging && stamp == step.stamp && queue == step.queue
  }

  lemma SameContent(a: Importer, b: Importer)
    ensures a.managed == b.managed && a.pending == b.pending && a.unflushed == b.unflushed ==> Content(a) == Content(b)
  {
    if a.managed == b.managed && a.pending == b.pending && a.unflushed == b.unflushed {
      assert Content(a).pending == Content(b).pending;
    }
  }

  /** What a 'down' leaves alone. */
  lemma DownElsewhere(s: Importer, now: nat, flushMs: nat, up: bool, ok: bool)
    ensures var d := Down(s, now, flushMs, up, ok);
            d == s.(unflushed := d.unflushed, dirty := d.dirty, file := d.file, epoch := d.epoch, ready := d.ready,
                readyPid := d.readyPid)
  {
    hide Flushed, Content;
  }

  lemma LaunchedIs(s: Importer, pid: nat, now: nat, flushMs: nat, up: bool, ok: bool)
    ensures var d := Down(s, now, flushMs, up, ok); Launched(s, pid, now, flushMs, up, ok) == Ready(d.(launch := d.launch + 1), pid)
  {
    hide Down, Ready;
  }

  lemma ReadyElsewhere(s: Importer, pid: nat)
    ensures var r := Ready(s, pid);
            r.unflushed == s.unflushed && r.dirty == s.dirty && r.file == s.file && r.epoch == s.epoch && r.launch == s.launch
  {
  }

  ghost predicate Buried(p0: map<Key, Tomb>, u0: map<Key, Held>, p1: map<Key, Tomb>, u1: map<Key, Held>, r: Run,
      done: set<Key>, now: nat)
    requires done <= r.deletes.Keys
  {
    p1 == p0 - done && u1 == u0 + NowHeld(r, done, now)
  }

  predicate Wanted(p: Option<Tomb>, u: Option<Held>, t: Tomb) {
    p == Some(t) || (u.Some? && u.value.tomb == t)
  }

  lemma AppliedIs(s: Importer, r: Run)
    ensures Applied(s, r) <= r.deletes.Keys
  {
  }

  lemma WantedIs(s: Importer, r: Run, k: Key)
    requires k in r.deletes
    ensures k in Applied(s, r) <==> Wanted(Get(s.pending, k), Get(s.unflushed, k), r.deletes[k])
  {
  }

  lemma NothingBuried(p0: map<Key, Tomb>, u0: map<Key, Held>, r: Run, now: nat)
    ensures Buried(p0, u0, p0, u0, r, {}, now)
  {
    assert NowHeld(r, {}, now).Keys == {};
  }

  lemma BuryMore(p0: map<Key, Tomb>, u0: map<Key, Held>, p1: map<Key, Tomb>, u1: map<Key, Held>, r: Run,
      done: set<Key>, now: nat, k: Key)
    requires done <= r.deletes.Keys && Buried(p0, u0, p1, u1, r, done, now) && k in r.deletes && k !in done
    ensures Buried(p0, u0, p1 - {k}, u1[k := Held(r.deletes[k], now, r.epoch)], r, done + {k}, now)
    ensures Get(p1, k) == Get(p0, k) && Get(u1, k) == Get(u0, k)
  {
    assert NowHeld(r, done + {k}, now) == NowHeld(r, done, now)[k := Held(r.deletes[k], now, r.epoch)];
    hide NowHeld;
  }

  lemma FinishPurgeIs(s: Importer, now: nat)
    requires s.running.Some? && s.running.value.job.PurgeJob?
    ensures
      var f, r := Finish(s, now), s.running.value;
      && f.running == None && Buried(s.pending, s.unflushed, f.pending, f.unflushed, r, Applied(s, r), now)
      && f.snapshot == s.snapshot && f.managed == s.managed && f.purged && !f.dirty && f.file == None
  {
    hide NowHeld, Applied;
  }

  lemma FinishApplyIs(s: Importer, now: nat)
    requires s.running.Some? && !s.running.value.job.PurgeJob?
    ensures
      var f, r, done := Finish(s, now), s.running.value, Applied(s, s.running.value);
      && f.running == None && Buried(s.pending, s.unflushed, f.pending, f.unflushed, r, done, now)
      && f.snapshot == s.snapshot - (r.refused - r.deletes.Keys) && f.managed == s.managed - (r.refused - r.deletes.Keys)
      && (f.dirty <==> s.dirty || done != {} || (r.refused - r.deletes.Keys) * s.managed.Keys != {})
      && f.purged == s.purged && f.file == s.file
  {
    var f, r := Finish(s, now), s.running.value;
    assert f.pending == s.pending - Applied(s, r) && f.unflushed == s.unflushed + NowHeld(r, Applied(s, r), now);
    hide NowHeld, Applied;
  }

  /** The pending deletions of a state file. */
  method LoadTombs(saved: map<Key, Param>) returns (tombs: map<Key, Tomb>)
    ensures tombs.Keys == saved.Keys && forall k :: k in saved ==> tombs[k] == Tomb(ExpireParam(saved[k]), 0)
  {
    tombs := map[];
    var todo := saved.Keys;
    while todo != {}
      invariant todo <= saved.Keys && tombs.Keys == saved.Keys - todo
      invariant forall k :: k in tombs ==> tombs[k] == Tomb(ExpireParam(saved[k]), 0)
      decreases |todo|
    {
      var k :| k in todo;
      tombs := tombs[k := Tomb(ExpireParam(saved[k]), 0)];
      todo := todo - {k};
    }
  }

  lemma FailIs(s: Importer)
    requires s.running.Some?
    ensures Fail(s).running.None?
    ensures s.running.value.job.ApplyJob? ==> Fail(s).ready.None? && Fail(s).readyPid.None?
    ensures !s.running.value.job.ApplyJob? ==> Fail(s).readyPid == s.readyPid
    ensures s.running.value.job.PurgeJob? ==> Fail(s).ready == s.ready
    ensures s.running.value.job.ReadyJob? && s.ready == Some(s.running.value.job.token) ==> Fail(s).ready.None?
    ensures s.running.value.job.ReadyJob? && s.ready != Some(s.running.value.job.token) ==> Fail(s).ready == s.ready
  {
    var job := s.running.value.job;
    match job
    case ApplyJob(_) =>
    case ReadyJob(t) =>
      if s.ready == Some(t) { assert Fail(s) == s.(running := None,
          ready := None); } else { assert Fail(s) == s.(running := None); }
    case PurgeJob(_) =>
  }

  class CookieImporter {
    var snapshot: map<Key, Param>
    var managed: map<Key, Param>
    var pending: map<Key, Tomb>
    var unflushed: map<Key, Held>
    var seen: map<Key, Param>
    var staging: map<nat, Staging>
    var bridge: Option<nat>
    var queue: seq<Job>
    var running: Option<Run>
    var ready: Option<nat>
    var readyPid: Option<nat>
    var readyLaunch: nat
    var launch: nat
    var epoch: nat
    var dirty: bool
    var purged: bool
    var file: Option<Saved>
    // the maps of pending deletions that purges replaced: a queued purge keeps the one it made
    var replaced: seq<map<Key, Tomb>>
    var stamp: nat
    var token: nat
    const flushMs: nat

    ghost function State(): Importer
      reads this
    {
      Importer(snapshot, managed, pending, unflushed, seen, staging, bridge, queue, running, ready, readyPid, readyLaunch,
               launch, epoch, dirty, purged, file, replaced, stamp, token)
    }

    ghost function Mine(): Maps
      reads this
    {
      Maps(snapshot, managed, seen, pending, unflushed, dirty)
    }

    /** Snapshot it; the bridge manages it from now on, and no tombstone may undo it. */
    method SetOne(key: Key, param: Param)
      modifies `snapshot, `managed, `seen, `pending, `unflushed, `dirty
      ensures Mine() == SyncedOne(old(Mine()), key, param)
    {
      snapshot := snapshot[key := param];
      var id := IdentityOf(param);
      seen := seen[key := id];
      if key !in managed || managed[key] != id {
        managed := managed[key := id];
        dirty := true;
      }
      assert managed == old(managed)[key := id];
      if key in pending { pending := pending - {key}; dirty := true; }
      assert pending == old(pending) - {key};
      if key in unflushed { unflushed := unflushed - {key}; dirty := true; }
      assert unflushed == old(unflushed) - {key};
    }

    /** Delete it from Brave (now or at the next launch) and stop managing it. */
    method ForgetOne(key: Key, given: Option<Param>)
      requires key in managed || key in snapshot || given.Some?
      modifies `snapshot, `managed, `pending, `unflushed, `dirty
      ensures Deletable(At(old(Mine()), key), given)
      ensures Mine() == ForgotOne(old(Mine()), key, given, stamp)
      ensures key in pending && K.CookieKey(pending[key].param) == K.CookieKey(
        if key in old(managed) then old(managed[key]) else if key in old(snapshot) then old(snapshot[key]) else given.value)
      ensures pending[key].param.expires == Some(1.0) && pending[key].param.value == ""
    {
      hide K.CookieKey;
      K.SameKey(if key in managed then managed[key] else if key in snapshot then snapshot[key] else given.value);
      var id := if key in managed then managed[key] else IdentityOf(if key in snapshot then snapshot[key] else given.value);
      snapshot := snapshot - {key};
      managed := managed - {key};
      pending := pending[key := Tomb(ExpireParam(id), stamp)];
      unflushed := unflushed - {key};
      dirty := true;
    }

    /** Every managed key that is not in `keys` goes. */
    method ForgetOthers(keys: set<Key>)
      modifies `snapshot, `managed, `pending, `unflushed, `dirty
      ensures ForgotAll(old(Mine()), Mine(), old(managed).Keys - keys, stamp)
    {
      hide ForgotAll, ForgotOne, At, Deletable;
      ghost var was := Mine();
      NothingForgotten(was, stamp);
      var todo := managed.Keys - keys;
      ghost var gone: set<Key> := {};
      while todo != {}
        invariant gone <= was.managed.Keys && forall x :: x in todo <==> x in was.managed && x !in keys && x !in gone
        invariant forall x :: x in gone ==> x !in keys
        invariant ForgotAll(was, Mine(), gone, stamp)
        decreases |todo|
      {
        var k :| k in todo;
        OneMoreForgotten(was, Mine(), gone, k, stamp);
        ForgetOne(k, None);
        todo := todo - {k};
        gone := gone + {k};
      }
      assert gone == was.managed.Keys - keys;
    }

    /** Sync every cookie of the batch no delta overtook; returns their keys. */
    method SetAll(items: seq<(Key, Param)>, overtaken: set<Key>) returns (touched: set<Key>)
      modifies `snapshot, `managed, `seen, `pending, `unflushed, `dirty
      ensures SyncedAll(old(Mine()), Mine(), ByKey(items) - overtaken)
      ensures touched == (ByKey(items) - overtaken).Keys
      ensures OncePerKey(items) && dirty ==> Dirties(old(Mine()), ByKey(items) - overtaken)
      ensures Mine() == SetEach(old(Mine()), items, overtaken)
    {
      ghost var was := Mine();
      touched := {};
      ghost var sets: map<Key, Param> := map[];
      for i := 0 to |items|
        invariant sets == ByKey(items[..i]) - overtaken && touched == sets.Keys
        invariant SyncedAll(was, Mine(), sets) && Mine() == SetEach(was, items[..i], overtaken)
        invariant OncePerKey(items) && dirty ==> Dirties(was, sets)
      {
        hide SyncedAll, SyncedOne, Dirties, OncePerKey, SetEach;
        var k, p := items[i].0, items[i].1;
        assert items[..i + 1] == items[..i] + [(k, p)];
        SetOneMore(was, items[..i], k, p, overtaken);
        ByKeyPut(items[..i], k, p, overtaken);
        if k !in overtaken {
          OneMoreSynced(was, Mine(), sets, k, p);
          if OncePerKey(items) && (dirty ==> Dirties(was, sets)) {
            KeysSoFar(items, i);
            OneMoreDirties(was, Mine(), sets, k, p);
          }
          SetOne(k, p);
          touched := touched + {k};
          sets := sets[k := p];
        }
      }
      assert items[..|items|] == items;
    }

    /** Brave up: queue an apply of these keys and of the pending deletions. */
    method QueueApply(keys: set<Key>, up: bool)
      modifies `queue
      ensures queue == if !up || (keys == {} && pending == map[]) then old(queue) else old(queue) + [ApplyJob(keys)]
    {
      if up && (keys != {} || pending != map[]) { queue := queue + [ApplyJob(keys)]; }
    }

    /** A batch of a full sync with more to come. */
    method OpenBatch(id: nat, items: seq<(Key, Param)>, up: bool)
      modifies `snapshot, `managed, `seen, `pending, `unflushed, `dirty, `staging, `queue
      ensures Agrees(Full(old(State()), id, ByKey(items), false, up), Mine(), staging, stamp, queue, OncePerKey(items))
      ensures dirty == SetEach(old(Mine()), items, StagingOf(old(State()), id).overtaken).dirty
    {
      hide Full, NotOvertaken, SyncedAll, ByKey, Dirties, OncePerKey, SetEach;
      ghost var was, cs := State(), ByKey(items);
      NotOvertakenIs(was, id, cs);
      var st := if id in staging then staging[id] else Staging({}, {});
      var touched := SetAll(items, st.overtaken);
      staging := staging[id := Staging(st.keys + touched, st.overtaken)];
      FullMaps(was, id, cs, false, up, Mine(), Mine());
      QueueApply(touched, up);
      FullRest(was, id, cs, false, up);
    }

    /** The last batch: every managed cookie the whole full sync did not include goes. */
    method LastBatch(id: nat, items: seq<(Key, Param)>, up: bool)
      modifies `snapshot, `managed, `seen, `pending, `unflushed, `dirty, `staging, `stamp, `queue
      ensures Agrees(Full(old(State()), id, ByKey(items), true, up), Mine(), staging, stamp, queue, OncePerKey(items))
      ensures dirty <==> (SetEach(old(Mine()), items, StagingOf(old(State()), id).overtaken).dirty ||
                          LeftOut(old(State()), id, ByKey(items)) != {})
    {
      hide Full, NotOvertaken, ForgotAll, SyncedAll, ByKey, Dirties, OncePerKey, SetEach;
      ghost var was, cs := State(), ByKey(items);
      NotOvertakenIs(was, id, cs);
      var st := if id in staging then staging[id] else Staging({}, {});
      var touched := SetAll(items, st.overtaken);
      ghost var m1 := Mine();
      staging := staging - {id};
      ForgetOthers(st.keys + touched);
      LastDirties(was, id, cs, m1, Mine());
      FullMaps(was, id, cs, true, up, m1, Mine());
      stamp := stamp + 1;
      QueueApply(touched, up);
      FullRest(was, id, cs, true, up);
    }

    /** One batch of a full sync: the cookies of `items` were accepted and are unexpired. It does what the step Full does with
        the last cookie of each key; the state file is due as if they were synced one by one. */
    method FullBatch(id: nat, items: seq<(Key, Param)>, last: bool, up: bool)
      modifies `snapshot, `managed, `seen, `pending, `unflushed, `dirty, `staging, `stamp, `queue
      ensures Agrees(Full(old(State()), id, ByKey(items), last, up), Mine(), staging, stamp, queue, OncePerKey(items))
      ensures dirty <==> (SetEach(old(Mine()), items, StagingOf(old(State()), id).overtaken).dirty ||
                          (last && LeftOut(old(State()), id, ByKey(items)) != {}))
    {
      hide Agrees, Full, SetEach, LeftOut, StagingOf;
      if last { LastBatch(id, items, up); } else { OpenBatch(id, items, up); }
    }

    /** A delta overtakes the full syncs in progress. */
    method Overtake(key: Key, ch: Change, ghost was: map<nat, Staging>, ghost before: map<Key, Change>)
      requires Touched(was, staging, before) && key !in before
      modifies `staging
      ensures Touched(was, staging, before[key := ch])
    {
      ghost var start := staging;
      var todo := staging.Keys;
      while todo != {}
        invariant todo <= start.Keys == staging.Keys
        invariant forall id :: id in start ==> staging[id] == if id in todo then start[id] else Touch(was[id], before[key := ch])
        decreases |todo|
      {
        var id :| id in todo;
        var st := staging[id];
        TouchMore(was[id], before, key, ch);
        hide Touch;
        staging := staging[id := Staging(if ch.removed then st.keys - {key} else st.keys + {key}, st.overtaken + {key})];
        todo := todo - {id};
      }
    }

    /** The accepted changes of one message: the last change per cookie wins. */
    method DeltaMessage(changes: seq<(Key, Change)>, up: bool)
      modifies `snapshot, `managed, `seen, `pending, `unflushed, `dirty, `staging, `stamp, `queue
      ensures Agrees(Delta(old(State()), LastPerKey(changes), up), Mine(), staging, stamp, queue, true)
    {
      hide Delta, Touched, AllChanged, LastPerKey, Distinct, Added;
      ghost var was := State();
      var list := LastChanges(changes);
      var touched := ChangeAll(list);
      DeltaMaps(was, list, up);
      DeltaRest(was, LastPerKey(list), up, staging);
      stamp := stamp + 1;
      QueueApply(touched, up);
    }

    method ChangeOne(key: Key, ch: Change)
      modifies `snapshot, `managed, `seen, `pending, `unflushed, `dirty
      ensures Mine() == Changed(old(Mine()), key, ch, stamp)
    {
      hide SyncedOne, ForgotOne, At, Deletable;
      if ch.removed { ForgetOne(key, Some(ch.param)); } else { SetOne(key, ch.param); }
    }

    /** Make the changes of a list with each key once; returns the keys set. */
    method ChangeAll(list: seq<(Key, Change)>) returns (touched: set<Key>)
      requires Distinct(list)
      modifies `snapshot, `managed, `seen, `pending, `unflushed, `dirty, `staging
      ensures Mine() == AllChanged(old(Mine()), list, stamp)
      ensures Touched(old(staging), staging, LastPerKey(list))
      ensures touched == Added(LastPerKey(list)).Keys
    {
      ghost var was, marks := Mine(), staging;
      NothingTouched(staging);
      touched := {};
      for i := 0 to |list|
        invariant Mine() == AllChanged(was, list[..i], stamp)
        invariant Touched(marks, staging, LastPerKey(list[..i]))
        invariant touched == Added(LastPerKey(list[..i])).Keys
      {
        hide Changed, AllChanged, LastPerKey, At, Added, Touched, Deletable;
        var k, ch := list[i].0, list[i].1;
        OneMoreChanged(was, list, i, stamp);
        AddedMore(LastPerKey(list[..i]), k, ch);
        Overtake(k, ch, marks, LastPerKey(list[..i]));
        ChangeOne(k, ch);
        if !ch.removed { touched := touched + {k}; }
      }
      assert list[..|list|] == list;
    }

    // ── Brave going up and down ──

    /** Drop the tombstones the running Brave has held for flushMs: they are on disk. */
    method SettleNow(now: nat)
      modifies `unflushed, `dirty
      ensures unflushed == Settle(old(State()), now, flushMs).unflushed && dirty == Settle(old(State()), now, flushMs).dirty
      ensures forall k :: k in unflushed <==> k in old(unflushed) && !(old(unflushed)[k].epoch == epoch && now - old(unflushed)[k].at >= flushMs)
    {
      ghost var was, gone := old(unflushed), Flushed(State(), now, flushMs);
      var todo := unflushed.Keys;
      while todo != {}
        invariant todo <= was.Keys
        invariant forall k :: k in unflushed <==> k in was && (k in todo || k !in gone)
        invariant forall k :: k in unflushed ==> unflushed[k] == was[k]
        invariant dirty <==> old(dirty) || exists k :: k in gone && k !in todo
        decreases |todo|
      {
        var k :| k in todo;
        if unflushed[k].epoch == epoch && now - unflushed[k].at >= flushMs {
          assert k in gone;
          unflushed := unflushed - {k};
          dirty := true;
        }
        todo := todo - {k};
      }
      assert unflushed == was - gone;
    }

    /** What the state file is written from. */
    method FileContent() returns (c: Saved)
      ensures c == Content(State())
    {
      var all: map<Key, Param> := map[];
      var todo := pending.Keys + unflushed.Keys;
      while todo != {}
        invariant todo <= pending.Keys + unflushed.Keys
        invariant all.Keys == pending.Keys + unflushed.Keys - todo
        invariant forall k :: k in all ==> all[k] == Content(State()).pending[k]
        decreases |todo|
      {
        var k :| k in todo;
        all := all[k := IdentityOf(if k in pending then pending[k].param else unflushed[k].tomb.param)];
        todo := todo - {k};
      }
      c := Saved(managed, all);
      assert c.pending == Content(State()).pending;
    }

    /** Write the state file if anything changed; `ok` says whether the file system took it. */
    method SaveState(now: nat, up: bool, ok: bool)
      modifies `unflushed, `dirty, `file
      ensures var s := Save(old(State()), now, flushMs, up, ok); unflushed == s.unflushed && dirty == s.dirty && file == s.file
    {
      hide Flushed, Content;
      if unflushed != map[] && up { SettleNow(now); }
      if !dirty || purged { return; }
      ghost var s1 := State();
      dirty := false;
      SameContent(s1, State());
      SameContent(s1, Settle(old(State()), now, flushMs));
      SameContent(s1, old(State()));
      var c := FileContent();
      if ok { file := Some(c); } else { dirty := true; }
    }

    /** Brave went down: the next launch gets the snapshot and the unflushed deletions again. */
    method BraveDown(now: nat, up: bool, ok: bool)
      modifies `unflushed, `dirty, `file, `epoch, `ready, `readyPid
      ensures var s := Down(old(State()), now, flushMs, up, ok);
              unflushed == s.unflushed && dirty == s.dirty && file == s.file && epoch == s.epoch && ready == s.ready &&
                  readyPid == s.readyPid
    {
      hide Flushed, Content;
      SettleNow(now);
      epoch := epoch + 1;
      assert State() == Settle(old(State()), now, flushMs).(epoch := epoch);
      SaveState(now, up, ok);
      ready := None;
      readyPid := None;
    }

    /** The first call for a new Brave queues its apply; later calls for the same Brave share it. */
    method BraveReady(pid: nat)
      modifies `ready, `readyPid, `readyLaunch, `token, `queue
      ensures var s := Ready(old(State()), pid);
              ready == s.ready && readyPid == s.readyPid && readyLaunch == s.readyLaunch && token == s.token && queue == s.queue
    {
      if ready.Some? && readyPid == Some(pid) && readyLaunch == launch { return; }
      readyPid := Some(pid);
      readyLaunch := launch;
      queue := queue + [ReadyJob(token)];
      ready := Some(token);
      token := token + 1;
    }

    /** A launch came up, maybe with an earlier Brave's PID: whatever was applied belongs to an earlier Brave. */
    method BraveLaunched(pid: nat, now: nat, up: bool, ok: bool)
      modifies `unflushed, `dirty, `file, `epoch, `ready, `readyPid, `readyLaunch, `token, `queue, `launch
      ensures var s := Launched(old(State()), pid, now, flushMs, up, ok);
              && unflushed == s.unflushed && dirty == s.dirty && file == s.file && epoch == s.epoch && launch == s.launch
              && ready == s.ready && readyPid == s.readyPid && readyLaunch == s.readyLaunch && token == s.token &&
                  queue == s.queue
    {
      hide Down, Ready, Launched;
      ghost var down := Down(State(), now, flushMs, up, ok);
      LaunchedIs(State(), pid, now, flushMs, up, ok);
      DownElsewhere(State(), now, flushMs, up, ok);
      BraveDown(now, up, ok);
      assert State() == down;
      launch := launch + 1;
      ghost var s1 := down.(launch := down.launch + 1);
      assert State() == s1;
      ReadyElsewhere(s1, pid);
      BraveReady(pid);
    }

    // ── the apply queue ──

    /** The snapshot's cookies whose expiry passed: Brave expires them itself. */
    method Expired(now: nat) returns (gone: set<Key>)
      ensures gone == ExpiredKeys(State(), now)
    {
      gone := {};
      var todo := snapshot.Keys;
      while todo != {}
        invariant todo <= snapshot.Keys
        invariant gone == ExpiredKeys(State(), now) - todo
        decreases |todo|
      {
        var k :| k in todo;
        if IsExpired(snapshot[k], now) { gone := gone + {k}; }
        todo := todo - {k};
      }
    }

    /** Forget them without deleting them from Brave. */
    method Drop(keys: set<Key>)
      modifies `snapshot, `managed, `dirty
      ensures snapshot == old(snapshot) - keys && managed == old(managed) - keys
      ensures dirty <==> old(dirty) || keys * old(managed).Keys != {}
    {
      snapshot := snapshot - keys;
      if keys * managed.Keys != {} { dirty := true; }
      managed := managed - keys;
    }

    /** The pending deletions and, with `lost`, those an earlier Brave may not have written to disk. */
    method Deletions() returns (deletes: map<Key, Tomb>)
      ensures deletes == pending + LostTombs(State())
    {
      deletes := map[];
      ghost var lost := LostTombs(State());
      var todo := unflushed.Keys;
      while todo != {}
        invariant todo <= unflushed.Keys
        invariant deletes == lost - todo
        decreases |todo|
      {
        var k :| k in todo;
        if unflushed[k].epoch != epoch {
          deletes := deletes[k := unflushed[k].tomb];
        }
        todo := todo - {k};
      }
      assert deletes == lost;
      deletes := pending + deletes;
    }

    method ParamsOf(tombs: map<Key, Tomb>) returns (params: map<Key, Param>)
      ensures params == TombParams(tombs)
    {
      params := map[];
      var todo := tombs.Keys;
      while todo != {}
        invariant todo <= tombs.Keys
        invariant params == TombParams(tombs) - todo
        decreases |todo|
      {
        var k :| k in todo;
        params := params[k := tombs[k].param];
        todo := todo - {k};
      }
    }

    /** The re-apply of a new Brave starts, unless there is nothing to apply. */
    method StartReapply(job: Job, now: nat)
      requires running.None?
      modifies `snapshot, `managed, `dirty, `running
      ensures var s, lost := old(State()), LostTombs(old(State()));
              var gone := ExpiredKeys(s, now);
              if s.snapshot == map[] && s.pending == map[] && lost == map[] then
                snapshot == s.snapshot && managed == s.managed && dirty == s.dirty && running == None
              else
                && snapshot == s.snapshot - gone && managed == s.managed - gone &&
                    (dirty <==> s.dirty || gone * s.managed.Keys != {})
                && running == Some(Run(job, s.epoch, None, snapshot + TombParams(s.pending + lost), s.pending + lost, {}))
    {
      hide LostTombs, ExpiredKeys, TombParams;
      var deletes := Deletions();
      if snapshot == map[] && pending == map[] && deletes == map[] { return; }
      var gone := Expired(now);
      Drop(gone);
      var params := ParamsOf(deletes);
      running := Some(Run(job, epoch, None, snapshot + params, deletes, {}));
    }

    /** The job at the head of the queue starts: it reads the state as it is now. */
    method StartJob(now: nat)
      requires queue != [] && running.None?
      modifies `snapshot, `managed, `dirty, `queue, `running
      ensures var s := Capture(old(State()), now);
              snapshot == s.snapshot && managed == s.managed && dirty == s.dirty && queue == s.queue && running == s.running
    {
      hide LostTombs, ExpiredKeys, TombParams;
      var job := queue[0];
      match job {
        case ApplyJob(keys) =>
          var params := ParamsOf(pending);
          running := Some(Run(job, epoch, None, Restrict(snapshot, keys) + params, pending, {}));
        case PurgeJob(id) =>
          var deletes := if id < |replaced| then replaced[id] else pending;
          var params := ParamsOf(deletes);
          running := Some(Run(job, epoch, None, map[] + params, deletes, {}));
        case ReadyJob(_) =>
          StartReapply(job, now);
      }
      queue := queue[1..];
    }

    /** Brave answered every call of the run: applied deletions become tombstones, refused cookies are dropped. */
    method FinishJob(now: nat)
      requires running.Some?
      modifies `snapshot, `managed, `pending, `unflushed, `dirty, `running, `purged, `file
      ensures var s := Finish(old(State()), now);
              && snapshot == s.snapshot && managed == s.managed && pending == s.pending && unflushed == s.unflushed
              && dirty == s.dirty && running == s.running && purged == s.purged && file == s.file
    {
      hide Applied, Finish;
      if running.value.job.PurgeJob? { FinishPurgeIs(State(), now); } else { FinishApplyIs(State(), now); }
      var r := running.value;
      Bury(r, now);
      running := None;
      if r.job.PurgeJob? {
        purged := true;
        dirty := false;
        file := None;
      } else {
        Drop(r.refused - r.deletes.Keys);
      }
    }

    /** The run's deletions become tombstones, but for those re-synced or deleted again meanwhile. */
    method Bury(r: Run, now: nat)
      modifies `pending, `unflushed, `dirty
      ensures var done := Applied(old(State()), r);
              Buried(old(pending), old(unflushed), pending, unflushed, r, done, now) && (dirty <==> old(dirty) || done != {})
    {
      hide Applied, Buried, NowHeld, Wanted, Get;
      ghost var was := State();
      ghost var done: set<Key> := {};
      AppliedIs(was, r);
      NothingBuried(pending, unflushed, r, now);
      var todo := r.deletes.Keys;
      while todo != {}
        invariant todo <= r.deletes.Keys && done == Applied(was, r) - todo && done <= r.deletes.Keys
        invariant Buried(was.pending, was.unflushed, pending, unflushed, r, done, now)
        invariant dirty <==> was.dirty || exists k :: k in done
        decreases |todo|
      {
        var k :| k in todo;
        var t := r.deletes[k];
        WantedIs(was, r, k);
        BuryMore(was.pending, was.unflushed, pending, unflushed, r, done, now, k);
        var wanted := BuryOne(k, Held(t, now, r.epoch));
        ghost var more := if wanted then done + {k} else done;
        assert more == Applied(was, r) - (todo - {k});
        assert Buried(was.pending, was.unflushed, pending, unflushed, r, more, now);
        done, todo := more, todo - {k};
      }
      assert done == Applied(was, r);
    }

    /** This deletion becomes a tombstone if it is still the one asked for. */
    method BuryOne(k: Key, held: Held) returns (wanted: bool)
      modifies `pending, `unflushed, `dirty
      ensures wanted <==> Wanted(Get(old(pending), k), Get(old(unflushed), k), held.tomb)
      ensures wanted ==> pending == old(pending) - {k} && unflushed == old(unflushed)[k := held] && dirty
      ensures !wanted ==> pending == old(pending) && unflushed == old(unflushed) && dirty == old(dirty)
    {
      wanted := (k in pending && pending[k] == held.tomb) || (k in unflushed && unflushed[k].tomb == held.tomb);
      if wanted {
        pending := pending - {k};
        unflushed := unflushed[k := held];
        dirty := true;
      }
    }

    /** The connection failed: the running Brave gets the whole snapshot again. */
    method FailJob()
      requires running.Some?
      modifies `running, `ready, `readyPid
      ensures var s := Fail(old(State())); running == s.running && ready == s.ready && readyPid == s.readyPid
    {
      FailIs(State());
      hide Fail;
      var r := running.value;
      running := None;
      match r.job {
        case ApplyJob(_) =>
          ready := None;
          readyPid := None;
        case ReadyJob(t) =>
          if ready == Some(t) { ready := None; }
        case PurgeJob(_) =>
      }
    }

    // ── purge, restart, the bridge's connection ──

    /** A broker starts with what the state file holds. */
    constructor (saved: Option<Saved>, flush: nat)
      ensures State() == Loaded(saved) && flushMs == flush
    {
      var f := if saved.Some? then saved.value else Saved(map[], map[]);
      var tombs := LoadTombs(f.pending);
      snapshot, managed, unflushed, seen, staging := map[], f.managed, map[], f.managed + f.pending, map[];
      bridge, queue, running, ready, readyPid := None, [], None, None, None;
      readyLaunch, launch, epoch, dirty, purged, file := 0, 0, 0, false, false, saved;
      replaced, stamp, token, flushMs := [], 1, 0, flush;
      pending := tombs;
    }

    /** A deletion of every cookie the bridge put into Brave; the newest one known wins. */
    method DeletionOfEverything() returns (all: map<Key, Tomb>)
      ensures all == PurgeSet(State())
    {
      all := map[];
      var todo := seen.Keys + managed.Keys + unflushed.Keys + pending.Keys;
      while todo != {}
        invariant todo <= seen.Keys + managed.Keys + unflushed.Keys + pending.Keys
        invariant all == PurgeSet(State()) - todo
        decreases |todo|
      {
        var k :| k in todo;
        all := all[k := if k in pending then pending[k]
                        else if k in unflushed then unflushed[k].tomb
                        else Tomb(ExpireParam(if k in managed then managed[k] else seen[k]), stamp)];
        todo := todo - {k};
      }
    }

    /** bridge:uninstall --purge, up to its apply. Refused while a bridge is connected or Brave is down. */
    method PurgeAll(up: bool) returns (ok: bool)
      modifies `snapshot, `managed, `seen, `staging, `unflushed, `pending, `dirty, `stamp, `replaced, `queue
      ensures ok <==> old(bridge).None? && up
      ensures ok ==> var s := Purge(old(State()));
                     && snapshot == map[] && managed == map[] && seen == map[] && staging == map[] && unflushed == map[] && dirty
                     && pending == s.pending && stamp == s.stamp && replaced == s.replaced && queue == s.queue
      ensures !ok ==> State() == old(State())
    {
      ok := bridge.None? && up;
      if !ok { return; }
      hide PurgeSet;
      var all := DeletionOfEverything();
      snapshot, managed, seen, staging, unflushed := map[], map[], map[], map[], map[];
      replaced := replaced + [pending];
      pending, dirty, stamp := all, true, stamp + 1;
      queue := queue + [PurgeJob(|replaced|)];
    }

    /** A bridge authenticated; refused while another one is connected. */
    method Handlers(id: nat) returns (ok: bool)
      modifies `bridge, `purged
      ensures ok <==> old(bridge).None?
      ensures bridge == (if ok then Some(id) else old(bridge)) && purged == (!ok && old(purged))
    {
      ok := bridge.None?;
      if ok { bridge, purged := Some(id), false; }
    }

    method ConnClosed(id: nat)
      modifies `bridge, `staging
      ensures var s := ImporterState.ConnClosed(old(State()), id); bridge == s.bridge && staging == s.staging
    {
      if bridge == Some(id) { bridge := None; }
      staging := staging - {id};
    }
  }

  // ── Storage.setCookies, batch by batch ──

  function Kept(pairs: seq<(Key, Param)>, refuses: set<Key>): seq<(Key, Param)> {
    if pairs == [] then []
    else Kept(pairs[..|pairs| - 1], refuses) + if pairs[|pairs| - 1].0 in refuses then [] else [pairs[|pairs| - 1]]
  }

  function Turned(pairs: seq<(Key, Param)>, refuses: set<Key>): seq<(Key, Param)> {
    if pairs == [] then []
    else Turned(pairs[..|pairs| - 1], refuses) + if pairs[|pairs| - 1].0 in refuses then [pairs[|pairs| - 1]] else []
  }

  lemma {:induction false} KeptParts(a: seq<(Key, Param)>, b: seq<(Key, Param)>, refuses: set<Key>)
    ensures Kept(a + b, refuses) == Kept(a, refuses) + Kept(b, refuses)
    ensures Turned(a + b, refuses) == Turned(a, refuses) + Turned(b, refuses)
  {
    if b == [] {
      assert a + b == a;
    } else {
      var n := |b| - 1;
      assert (a + b)[..|a + b| - 1] == a + b[..n];
      KeptParts(a, b[..n], refuses);
    }
  }

  lemma {:induction false} NoneTurned(pairs: seq<(Key, Param)>, refuses: set<Key>)
    requires forall i :: 0 <= i < |pairs| ==> pairs[i].0 !in refuses
    ensures Kept(pairs, refuses) == pairs && Turned(pairs, refuses) == []
  {
    if pairs != [] {
      var n := |pairs| - 1;
      NoneTurned(pairs[..n], refuses);
      assert pairs[n].0 !in refuses && pairs[..n] + [pairs[n]] == pairs;
    }
  }

  /** How many calls a batch takes: one, and one more for each of its cookies if Brave refuses any. */
  function BatchCalls(chunk: seq<(Key, Param)>, refuses: set<Key>): nat {
    if forall j :: 0 <= j < |chunk| ==> chunk[j].0 !in refuses then 1 else 1 + |chunk|
  }

  function Calls(pairs: seq<(Key, Param)>, batch: nat, refuses: set<Key>): nat
    requires 0 < batch
    decreases |pairs|
  {
    if pairs == [] then 0
    else
      var n := if batch < |pairs| then batch else |pairs|;
      BatchCalls(pairs[..n], refuses) + Calls(pairs[n..], batch, refuses)
  }

  /** The first n of these were handled: stored, or refused by Brave. */
  ghost predicate Handled(pairs: seq<(Key, Param)>, n: int, refuses: set<Key>, stored: seq<(Key, Param)>, refused: seq<(Key, Param)>) {
    0 <= n <= |pairs| && stored == Kept(pairs[..n], refuses) && refused == Turned(pairs[..n], refuses)
  }

  /** One call per cookie. The connection answers `answered` calls and closes. */
  method SendEach(pairs: seq<(Key, Param)>, refuses: set<Key>, answered: nat)
    returns (stored: seq<(Key, Param)>, refused: seq<(Key, Param)>, failed: bool)
    ensures failed <==> answered < |pairs|
    ensures Handled(pairs, if failed then answered else |pairs|, refuses, stored, refused)
  {
    stored, refused := [], [];
    for j := 0 to |pairs|
      invariant j <= answered && Handled(pairs, j, refuses, stored, refused)
    {
      if j == answered { return stored, refused, true; }
      assert pairs[..j + 1][..j] == pairs[..j];
      if pairs[j].0 in refuses { refused := refused + [pairs[j]]; } else { stored := stored + [pairs[j]]; }
    }
    failed := false;
  }

  /** Brave stores the cookies of a call, or none when it refuses one; a refused batch is sent again cookie by cookie.
      `n`: how many were handled, `left`: the calls the connection still answers. */
  method SendBatch(chunk: seq<(Key, Param)>, refuses: set<Key>, answered: nat)
    returns (stored: seq<(Key, Param)>, refused: seq<(Key, Param)>, n: nat, left: nat, failed: bool)
    ensures failed <==> answered < BatchCalls(chunk, refuses)
    ensures !failed ==> n == |chunk| && left == answered - BatchCalls(chunk, refuses)
    ensures failed && chunk != [] ==> n < |chunk|
    ensures Handled(chunk, n, refuses, stored, refused)
  {
    stored, refused, n, left := [], [], 0, 0;
    if answered == 0 { return stored, refused, n, left, true; }
    if forall j :: 0 <= j < |chunk| ==> chunk[j].0 !in refuses {
      NoneTurned(chunk, refuses);
      assert chunk[..|chunk|] == chunk;
      return chunk, [], |chunk|, answered - 1, false;
    }
    stored, refused, failed := SendEach(chunk, refuses, answered - 1);
    n := if failed then answered - 1 else |chunk|;
    if !failed { left := answered - 1 - |chunk|; }
  }

  /** Batch by batch. The connection answers `answered` calls and closes: the source then throws (`failed`), and the cookies
      handled so far are a prefix. Returns what Brave stored, in order, and what it refused. */
  method SendAll(pairs: seq<(Key, Param)>, batch: nat, refuses: set<Key>, answered: nat)
    returns (stored: seq<(Key, Param)>, refused: seq<(Key, Param)>, failed: bool)
    requires 0 < batch
    ensures failed <==> answered < Calls(pairs, batch, refuses)
    ensures !failed ==> stored == Kept(pairs, refuses) && refused == Turned(pairs, refuses)
    ensures failed ==> exists n :: n < |pairs| && Handled(pairs, n, refuses, stored, refused)
  {
    hide BatchCalls, Calls, Kept, Turned, Handled;
    stored, refused, failed := [], [], false;
    var i, left := 0, answered;
    assert pairs[0..] == pairs && pairs[|pairs|..] == [];
    NothingHandled(pairs, batch, refuses);
    while i < |pairs| && !failed
      invariant i <= |pairs| && Handled(pairs, i, refuses, stored, refused) && (failed ==> i < |pairs|)
      invariant failed ==> answered < Calls(pairs, batch, refuses)
      invariant !failed ==> answered - left + Calls(pairs[i..], batch, refuses) == Calls(pairs, batch, refuses)
      decreases !failed, |pairs| - i
    {
      var end := if i + batch < |pairs| then i + batch else |pairs|;
      var chunk := pairs[i..end];
      FirstBatch(pairs, i, end, batch, refuses);
      var s, r, n, rest, closed := SendBatch(chunk, refuses, left);
      PartHandled(pairs, i, chunk, n, refuses, stored, refused, s, r);
      stored, refused, left, failed, i := stored + s, refused + r, rest, closed, i + n;
    }
    if !failed { AllHandled(pairs, refuses, stored, refused); }
  }

  lemma NothingHandled(pairs: seq<(Key, Param)>, batch: nat, refuses: set<Key>)
    requires 0 < batch
    ensures Handled(pairs, 0, refuses, [], []) && Calls([], batch, refuses) == 0
  {
  }

  lemma AllHandled(pairs: seq<(Key, Param)>, refuses: set<Key>, stored: seq<(Key, Param)>, refused: seq<(Key, Param)>)
    requires Handled(pairs, |pairs|, refuses, stored, refused)
    ensures stored == Kept(pairs, refuses) && refused == Turned(pairs, refuses)
  {
    hide Kept, Turned;
    assert pairs[..|pairs|] == pairs;
  }

  lemma FirstBatch(pairs: seq<(Key, Param)>, i: nat, end: nat, batch: nat, refuses: set<Key>)
    requires 0 < batch && i < |pairs| && end == if i + batch < |pairs| then i + batch else |pairs|
    ensures Calls(pairs[i..], batch, refuses) == BatchCalls(pairs[i..end], refuses) + Calls(pairs[end..], batch, refuses)
  {
    assert pairs[i..][..end - i] == pairs[i..end] && pairs[i..][end - i..] == pairs[end..];
  }

  lemma PartHandled(pairs: seq<(Key, Param)>, i: nat, chunk: seq<(Key, Param)>, n: nat, refuses: set<Key>,
      stored: seq<(Key, Param)>, refused: seq<(Key, Param)>, s: seq<(Key, Param)>, r: seq<(Key, Param)>)
    requires i + |chunk| <= |pairs| && chunk == pairs[i..i + |chunk|]
    requires Handled(pairs, i, refuses, stored, refused) && Handled(chunk, n, refuses, s, r)
    ensures Handled(pairs, i + n, refuses, stored + s, refused + r)
  {
    hide Kept, Turned;
    assert pairs[..i + n] == pairs[..i] + chunk[..n];
    KeptParts(pairs[..i], chunk[..n], refuses);
  }
}
