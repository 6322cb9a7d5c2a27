// Each step keeps the invariant, for one key at a time.
module ReplicationProofs {
  import opened Cookies
  import opened ImporterState
  import opened BraveReplication
  import opened ReplicationInvariant

  lemma {:induction false} OverlayAppend(j: Jar, msgs: seq<Jar>, m: Jar)
    ensures Overlay(j, msgs + [m]) == Overlay(j, msgs) + m
    decreases |msgs|
  {
    if msgs == [] {
      assert Overlay(j + m, []) == j + m;
    } else {
      assert (msgs + [m])[1..] == msgs[1..] + [m];
      OverlayAppend(j + msgs[0], msgs[1..], m);
    }
  }

  lemma {:induction false} OverlayLive(j: Jar, msgs: seq<Jar>, k: Key, now: nat)
    requires Live(Overlay(j, msgs), k, now)
    ensures Live(j, k, now) || LiveIn(msgs, k, now)
    decreases |msgs|
  {
    if msgs != [] {
      OverlayLive(j + msgs[0], msgs[1..], k, now);
      if LiveIn(msgs[1..], k, now) {
        var i :| 0 <= i < |msgs[1..]| && Live(msgs[1..][i], k, now);
        assert Live(msgs[i + 1], k, now);
      } else if Live(msgs[0], k, now) {
        assert LiveIn(msgs, k, now);
      }
    }
  }

  /** Two jars that agree on k still do after the same messages. */
  lemma {:induction false} OverlayAt(j: Jar, j': Jar, msgs: seq<Jar>, k: Key)
    requires k in j <==> k in j'
    requires k in j ==> j[k] == j'[k]
    ensures k in Overlay(j, msgs) <==> k in Overlay(j', msgs)
    ensures k in Overlay(j, msgs) ==> Overlay(j, msgs)[k] == Overlay(j', msgs)[k]
    decreases |msgs|
  {
    if msgs != [] {
      OverlayAt(j + msgs[0], j' + msgs[0], msgs[1..], k);
    }
  }

  /** Without k in the jar, k is there after the messages only with a value a message gave it. */
  lemma {:induction false} OverlayWithout(j: Jar, msgs: seq<Jar>, k: Key)
    ensures k in Overlay(j - {k}, msgs) ==> k in Overlay(j, msgs) && Overlay(j, msgs)[k] == Overlay(j - {k}, msgs)[k]
    decreases |msgs|
  {
    if msgs != [] {
      if k in msgs[0] {
        OverlayAt((j - {k}) + msgs[0], j + msgs[0], msgs[1..], k);
      } else {
        OverlayAt((j - {k}) + msgs[0], (j + msgs[0]) - {k}, msgs[1..], k);
        OverlayWithout(j + msgs[0], msgs[1..], k);
      }
    }
  }

  lemma {:induction false} EndsRightAppend(replaced: seq<map<Key, Tomb>>, q: seq<Job>, j: Job, k: Key, right: bool)
    ensures EndsRight(replaced, q + [j], k, right) == After(replaced, j, k, EndsRight(replaced, q, k, right))
    decreases |q|
  {
    if q == [] {
      assert (q + [j])[1..] == [];
    } else {
      assert (q + [j])[1..] == q[1..] + [j];
      EndsRightAppend(replaced, q[1..], j, k, After(replaced, q[0], k, right));
    }
  }

  lemma {:induction false} EndsRightMonotone(replaced: seq<map<Key, Tomb>>, q: seq<Job>, k: Key)
    requires EndsRight(replaced, q, k, false)
    ensures EndsRight(replaced, q, k, true)
    decreases |q|
  {
    if q != [] && After(replaced, q[0], k, false) == false && After(replaced, q[0], k, true) {
      EndsRightMonotone(replaced, q[1..], k);
    }
  }

  lemma {:induction false} ReadyEndsRight(replaced: seq<map<Key, Tomb>>, q: seq<Job>, k: Key, right: bool, right': bool)
    requires EndsRight(replaced, q, k, right) && (right ==> right')
    ensures EndsRight(replaced, q, k, right')
  {
    if right != right' {
      EndsRightMonotone(replaced, q, k);
    }
  }

  lemma ExpiryLater(s: Sys, later: nat)
    requires s.now <= later
    ensures forall j: Jar, k :: Live(j, k, later) ==> Live(j, k, s.now)
  {
  }

  // ── Brave on its own ──

  lemma TickKeeps(s: Sys, later: nat, k: Key)
    requires KeyInv(s, k) && s.now <= later
    ensures KeyInv(s.(now := later), k)
  {
    ExpiryLater(s, later);
    assert LiveIn(s.brave.inbox, k, later) ==> LiveIn(s.brave.inbox, k, s.now);
  }

  lemma CommitKeeps(s: Sys, keys: set<Key>, k: Key)
    requires KeyInv(s, k)
    ensures KeyInv(s.(brave := Committed(s.brave, keys)), k)
  {
  }

  /** A site's change takes x out of what Brave will hold, and nothing else. */
  lemma SiteWriteArrives(s: Sys, s': Sys, x: Key, k: Key)
    requires s'.brave == s.brave.(memory := s.brave.memory - {x}, uncommitted := s'.brave.uncommitted)
    ensures k in Arrived(s') ==> k in Arrived(s) && Arrived(s')[k] == Arrived(s)[k]
    ensures k != x ==> (k in Arrived(s) ==> k in Arrived(s'))
  {
    if k == x {
      OverlayWithout(s.brave.memory, s.brave.inbox, k);
    } else {
      OverlayAt(s.brave.memory - {x}, s.brave.memory, s.brave.inbox, k);
    }
    hide Overlay;
  }

  lemma SiteWriteConverges(s: Sys, s': Sys, x: Key, k: Key)
    requires SetsConverge(s, k)
    requires s' == s.(brave := s.brave.(memory := s.brave.memory - {x}, uncommitted := s'.brave.uncommitted),
                      past := s.past.(overwritten := s.past.overwritten + {x}))
    ensures SetsConverge(s', k)
  {
    SiteWriteArrives(s, s', x, k);
    hide Arrived;
    if InCharge(s) && k in s.imp.snapshot && k !in s.past.stranded {
      ReadyEndsRight(s.imp.replaced, s.imp.queue, k, Matches(s, Final(s), k), Matches(s', Final(s'), k));
    }
    hide EndsRight;
  }

  lemma SiteWriteKeeps(s: Sys, s': Sys, x: Key, k: Key)
    requires KeyInv(s, k)
    requires s' == s.(brave := s.brave.(memory := s.brave.memory - {x}, uncommitted := MarkUncommitted(s.brave, {x}, s.now)),
                      past := s.past.(overwritten := s.past.overwritten + {x}))
    ensures KeyInv(s', k)
  {
    SiteWriteArrives(s, s', x, k);
    SiteWriteConverges(s, s', x, k);
    hide SetsConverge, EndsRight, Overlay, Final, Matches, Arrived;
    assert StoreAgrees(s', k) && MapsAgree(s', k) && Traced(s', k) && Flushing(s', k) && Deleting(s', k);
  }

  lemma InboxHead(msgs: seq<Jar>, k: Key, now: nat)
    requires msgs != []
    ensures LiveIn(msgs[1..], k, now) || Live(msgs[0], k, now) ==> LiveIn(msgs, k, now)
  {
    if LiveIn(msgs[1..], k, now) {
      var i :| 0 <= i < |msgs[1..]| && Live(msgs[1..][i], k, now);
      assert Live(msgs[i + 1], k, now);
    }
  }

  lemma ProcessKeeps(s: Sys, s': Sys, k: Key)
    requires KeyInv(s, k) && s.brave.inbox != []
    requires s' == s.(brave := s.brave.(memory := s.brave.memory + s.brave.inbox[0], inbox := s.brave.inbox[1..],
                                        uncommitted := MarkUncommitted(s.brave, s.brave.inbox[0].Keys, s.now)))
    ensures KeyInv(s', k)
  {
    InboxHead(s.brave.inbox, k, s.now);
    assert Arrived(s') == Arrived(s);
    hide Overlay, EndsRight, LiveIn;
    assert StoreAgrees(s', k) && MapsAgree(s', k) && Traced(s', k) && Flushing(s', k) && Deleting(s', k);
  }

  lemma DieKeeps(s: Sys, k: Key)
    requires KeyInv(s, k)
    ensures KeyInv(s.(brave := Dead(s.brave, s.now)), k)
  {
  }

  // ── tombstones ──

  /** A tombstone is dropped only once its deletion is on disk. */
  lemma FlushedIsOnDisk(s: Sys, t: Timing, k: Key)
    requires Inv(s, t) && t.commitMs + t.reportMs <= t.flushMs
    requires k in Flushed(s.imp, s.now, t.flushMs) && k !in s.past.stranded
    ensures !Live(s.brave.disk, k, s.now) && !Live(s.brave.memory, k, s.now)
  {
    assert KeyInv(s, k);
    var b := s.brave;
    if Live(b.disk, k, s.now) {
      assert false;
    }
  }

  /** Dropping tombstones that are on disk, saving, and moving to a later epoch. */
  ghost predicate OnlySettled(imp: Importer, imp': Importer, dropped: set<Key>) {
    && imp' == imp.(unflushed := imp.unflushed - dropped, dirty := imp'.dirty, file := imp'.file, epoch := imp'.epoch,
                    ready := imp'.ready, readyPid := imp'.readyPid)
    && imp.epoch <= imp'.epoch
    && (imp'.ready == imp.ready || imp'.ready.None?)
  }

  lemma SaveSettles(imp: Importer, now: nat, flushMs: nat, up: bool, ok: bool) returns (dropped: set<Key>)
    ensures dropped <= Flushed(imp, now, flushMs)
    ensures OnlySettled(imp, Save(imp, now, flushMs, up, ok), dropped)
    ensures Save(imp, now, flushMs, up, ok).epoch == imp.epoch
  {
    dropped := if imp.unflushed != map[] && up then Flushed(imp, now, flushMs) else {};
    assert imp.unflushed - {} == imp.unflushed;
  }

  ghost function NextEpoch(imp: Importer, dropped: set<Key>): Importer {
    imp.(unflushed := imp.unflushed - dropped, epoch := imp.epoch + 1, dirty := imp.dirty || dropped != {})
  }

  lemma DownIs(imp: Importer, now: nat, flushMs: nat, up: bool, ok: bool)
    ensures Down(imp, now, flushMs, up, ok) ==
            Save(NextEpoch(imp, Flushed(imp, now, flushMs)), now, flushMs, up, ok).(ready := None, readyPid := None)
  {
    hide Save, Flushed;
    assert Settle(imp, now, flushMs).(epoch := imp.epoch + 1) == NextEpoch(imp, Flushed(imp, now, flushMs));
    hide Settle, NextEpoch;
  }

  lemma DownSettles(imp: Importer, now: nat, flushMs: nat, up: bool, ok: bool)
    requires forall k :: k in imp.unflushed ==> imp.unflushed[k].epoch <= imp.epoch
    ensures OnlySettled(imp, Down(imp, now, flushMs, up, ok), Flushed(imp, now, flushMs))
    ensures Down(imp, now, flushMs, up, ok).epoch == imp.epoch + 1
    ensures Down(imp, now, flushMs, up, ok).ready.None?
  {
    var gone := Flushed(imp, now, flushMs);
    DownIs(imp, now, flushMs, up, ok);
    assert Flushed(NextEpoch(imp, gone), now, flushMs) == {};
    var dropped := SaveSettles(NextEpoch(imp, gone), now, flushMs, up, ok);
    hide Save, Flushed, Down;
    SettledTwice(imp, NextEpoch(imp, gone), Save(NextEpoch(imp, gone), now, flushMs, up, ok), gone);
  }

  lemma SettledTwice(imp: Importer, s2: Importer, s3: Importer, dropped: set<Key>)
    requires s2 == imp.(unflushed := imp.unflushed - dropped, epoch := imp.epoch + 1, dirty := s2.dirty)
    requires OnlySettled(s2, s3, {})
    ensures OnlySettled(imp, s3.(ready := None, readyPid := None), dropped)
  {
    assert s2.unflushed - {} == s2.unflushed;
  }

  lemma DroppedKeepsState(s: Sys, t: Timing, s': Sys, dropped: set<Key>, k: Key)
    requires Inv(s, t) && t.commitMs + t.reportMs <= t.flushMs
    requires dropped <= Flushed(s.imp, s.now, t.flushMs)
    requires OnlySettled(s.imp, s'.imp, dropped)
    requires s'.now == s.now && s'.past == s.past && s'.brave == s.brave.(serving := s'.brave.serving)
    requires if s'.imp.epoch == s.imp.epoch then s'.brave.serving == s.brave.serving else !s'.brave.serving
    ensures StoreAgrees(s', k) && MapsAgree(s', k) && Traced(s', k) && Flushing(s', k)
  {
    assert KeyInv(s, k);
    if k in dropped && k !in s.past.stranded {
      FlushedIsOnDisk(s, t, k);
    }
    hide Inv, Flushed, SetsConverge, LostReapplied, Collected, PurgeTombs, Deleting;
  }

  lemma DroppedKeeps(s: Sys, t: Timing, s': Sys, dropped: set<Key>, k: Key)
    requires Inv(s, t) && t.commitMs + t.reportMs <= t.flushMs
    requires dropped <= Flushed(s.imp, s.now, t.flushMs)
    requires OnlySettled(s.imp, s'.imp, dropped)
    requires s'.now == s.now && s'.past == s.past && s'.brave == s.brave.(serving := s'.brave.serving)
    requires if s'.imp.epoch == s.imp.epoch then s'.brave.serving == s.brave.serving else !s'.brave.serving
    ensures KeyInv(s', k)
  {
    assert KeyInv(s, k);
    DroppedKeepsState(s, t, s', dropped, k);
    assert Final(s') == Final(s) && Arrived(s') == Arrived(s);
    hide StoreAgrees, Traced, Flushing, EndsRight, Overlay, Final, Arrived, Inv, Flushed;
  }

  lemma UnflushedEpochs(s: Sys, t: Timing)
    requires Inv(s, t)
    ensures forall k :: k in s.imp.unflushed ==> s.imp.unflushed[k].epoch <= s.imp.epoch
  {
    forall k | k in s.imp.unflushed ensures s.imp.unflushed[k].epoch <= s.imp.epoch {
      assert KeyInv(s, k);
    }
  }

  lemma SaveKeeps(s: Sys, t: Timing, up: bool, ok: bool, k: Key)
    requires Inv(s, t) && t.commitMs + t.reportMs <= t.flushMs
    ensures KeyInv(s.(imp := Save(s.imp, s.now, t.flushMs, up, ok)), k)
  {
    var dropped := SaveSettles(s.imp, s.now, t.flushMs, up, ok);
    hide KeyInv, Save;
    DroppedKeeps(s, t, s.(imp := Save(s.imp, s.now, t.flushMs, up, ok)), dropped, k);
  }

  lemma DownKeeps(s: Sys, t: Timing, s': Sys, up: bool, ok: bool, k: Key)
    requires Inv(s, t) && t.commitMs + t.reportMs <= t.flushMs
    requires s' == s.(imp := Down(s.imp, s.now, t.flushMs, up, ok), brave := s.brave.(serving := false))
    ensures KeyInv(s', k) && s'.imp.ready.None? && s'.imp.epoch == s.imp.epoch + 1 && s'.imp.running == s.imp.running
    ensures k in s'.imp.unflushed ==> s'.imp.unflushed[k].epoch < s'.imp.epoch
  {
    UnflushedEpochs(s, t);
    DownSettles(s.imp, s.now, t.flushMs, up, ok);
    hide KeyInv, Down;
    DroppedKeeps(s, t, s', Flushed(s.imp, s.now, t.flushMs), k);
  }

  // ── launches ──

  lemma ReadyAppended(replaced: seq<map<Key, Tomb>>, q: seq<Job>, token: nat, k: Key, right: bool)
    ensures ReadyQueued(q + [ReadyJob(token)]) && Collector(q + [ReadyJob(token)])
    ensures EndsRight(replaced, q + [ReadyJob(token)], k, right)
  {
    EndsRightAppend(replaced, q, ReadyJob(token), k, right);
    assert ReadyJob(token) in q + [ReadyJob(token)];
  }

  lemma QueueGrows(q: seq<Job>, j: Job)
    ensures ReadyQueued(q) ==> ReadyQueued(q + [j])
    ensures Collector(q) ==> Collector(q + [j])
    ensures forall x :: x in q ==> x in q + [j]
    ensures forall x :: x in q + [j] ==> x in q || x == j
  {
  }

  /** Only the re-apply fields changed; if a re-apply is newly awaited, it is the last job. */
  ghost predicate OnlyReady(imp: Importer, imp': Importer) {
    && imp' == imp.(launch := imp'.launch, readyPid := imp'.readyPid, readyLaunch := imp'.readyLaunch, ready := imp'.ready,
                    token := imp'.token, queue := imp'.queue)
    && (imp'.queue == imp.queue + [ReadyJob(imp.token)] || (imp'.queue == imp.queue && imp'.ready == imp.ready))
  }

  lemma ReadyIs(imp: Importer, pid: nat)
    ensures OnlyReady(imp, Ready(imp, pid))
    ensures imp.ready.None? ==> Ready(imp, pid).queue == imp.queue + [ReadyJob(imp.token)]
    ensures Ready(imp, pid).ready.Some?
  {
  }

  /** A new re-apply at the end of the queue puts everything right. */
  lemma ReadyKeeps(s: Sys, s': Sys, k: Key)
    requires KeyInv(s, k) && OnlyReady(s.imp, s'.imp) && s' == s.(imp := s'.imp)
    ensures KeyInv(s', k)
  {
    var q := s.imp.queue;
    assert StoreAgrees(s', k) && MapsAgree(s', k) && Traced(s', k) && Flushing(s', k) && Deleting(s', k) && Final(s') == Final(s);
    if s'.imp.queue != q {
      QueueGrows(q, ReadyJob(s.imp.token));
      ReadyAppended(s.imp.replaced, q, s.imp.token, k, k in s.imp.snapshot && Matches(s, Final(s), k));
    }
  }

  lemma LaunchedKeeps(s: Sys, t: Timing, s': Sys, pid: nat, up: bool, ok: bool, k: Key)
    requires Inv(s, t) && t.commitMs + t.reportMs <= t.flushMs && !s.brave.serving
    requires s' == s.(imp := Launched(s.imp, pid, s.now, t.flushMs, up, ok))
    ensures KeyInv(s', k)
  {
    hide KeyInv, Ready, Down;
    var down := s.(imp := Down(s.imp, s.now, t.flushMs, up, ok));
    DownKeeps(s, t, down, up, ok, k);
    ReadyIs(down.imp.(launch := down.imp.launch + 1), pid);
    ReadyKeeps(down, s', k);
  }

  lemma StartedKeeps(s: Sys, kept: set<Key>, k: Key)
    requires KeyInv(s, k) && s.imp.ready.None?
    requires k in s.imp.unflushed ==> s.imp.unflushed[k].epoch < s.imp.epoch
    requires Running(s) && s.imp.running.value.conn.Some? ==> s.imp.running.value.conn.value <= s.brave.launch
    ensures KeyInv(s.(brave := Started(s.brave, kept, s.imp.epoch)), k)
  {
  }

  lemma LaunchKeeps(s: Sys, t: Timing, s': Sys, kept: set<Key>, pid: nat, up: bool, ok: bool, k: Key)
    requires Inv(s, t) && t.commitMs + t.reportMs <= t.flushMs && !s.brave.serving
    requires s'.imp == Launched(s.imp, pid, s.now, t.flushMs, up, ok)
    requires s' == s.(imp := s'.imp, brave := Started(s.brave, kept, s'.imp.epoch))
    ensures KeyInv(s', k)
  {
    var down := s.(imp := Down(s.imp, s.now, t.flushMs, up, ok));
    var started := down.(brave := Started(s.brave, kept, down.imp.epoch));
    hide KeyInv, Down, Started, Ready;
    DownKeeps(s, t, down, up, ok, k);
    StartedKeeps(down, kept, k);
    ReadyIs(down.imp.(launch := down.imp.launch + 1), pid);
    ReadyKeeps(started, s', k);
  }

  // ── the bridge's messages ──

  /** What a message does to k: sync it, forget it, or leave it alone. */
  ghost predicate HandledAt(imp: Importer, imp': Importer, sets: map<Key, Param>, gone: set<Key>, k: Key) {
    if k in sets then
      && k in imp'.snapshot && imp'.snapshot[k] == sets[k] && k in imp'.managed && k in imp'.seen
      && k !in imp'.pending && k !in imp'.unflushed
    else if k in gone then
      && k !in imp'.snapshot && k !in imp'.managed && k !in imp'.unflushed && (k in imp'.seen <==> k in imp.seen)
      && k in imp'.pending && DeadTomb(imp'.pending[k]) && imp'.pending[k].stamp == imp.stamp < imp'.stamp
    else
      && (k in imp'.snapshot <==> k in imp.snapshot) && (k in imp.snapshot ==> imp'.snapshot[k] == imp.snapshot[k])
      && (k in imp'.managed <==> k in imp.managed) && (k in imp'.seen <==> k in imp.seen)
      && (k in imp'.pending <==> k in imp.pending) && (k in imp.pending ==> imp'.pending[k] == imp.pending[k])
      && (k in imp'.unflushed <==> k in imp.unflushed) && (k in imp.unflushed ==> imp'.unflushed[k] == imp.unflushed[k])
  }

  ghost predicate OnlyHandled(imp: Importer, imp': Importer, sets: map<Key, Param>) {
    && imp'.running == imp.running && imp'.epoch == imp.epoch && imp'.ready == imp.ready && imp'.replaced == imp.replaced
    && imp'.token == imp.token && imp.stamp <= imp'.stamp
    && (imp'.queue == imp.queue || imp'.queue == imp.queue + [ApplyJob(sets.Keys)])
  }

  lemma HandledKeepsState(s: Sys, s': Sys, sets: map<Key, Param>, gone: set<Key>, k: Key)
    requires KeyInv(s, k) && OnlyHandled(s.imp, s'.imp, sets) && HandledAt(s.imp, s'.imp, sets, gone, k)
    requires s' == s.(imp := s'.imp, past := Instructed(s.past, sets, gone))
    requires k in sets ==> sets[k].expires != Some(1.0)
    ensures StoreAgrees(s', k) && MapsAgree(s', k) && Traced(s', k) && Flushing(s', k) && Deleting(s', k) && PurgeTombs(s', k)
  {
    assert Arrived(s') == Arrived(s);
    hide SetsConverge, LostReapplied, Collected, Overlay;
  }

  lemma HandledKeeps(s: Sys, s': Sys, sets: map<Key, Param>, gone: set<Key>, k: Key)
    requires KeyInv(s, k) && OnlyHandled(s.imp, s'.imp, sets) && HandledAt(s.imp, s'.imp, sets, gone, k)
    requires s' == s.(imp := s'.imp, past := Instructed(s.past, sets, gone))
    requires k in sets ==> sets[k].expires != Some(1.0)
    requires InCharge(s) && (k in sets || k in gone) ==> s'.imp.queue == s.imp.queue + [ApplyJob(sets.Keys)]
    ensures KeyInv(s', k)
  {
    var q, job := s.imp.queue, ApplyJob(sets.Keys);
    assert Arrived(s') == Arrived(s) && Final(s') == Final(s);
    HandledKeepsState(s, s', sets, gone, k);
    hide StoreAgrees, Traced, Flushing, Deleting, PurgeTombs, Overlay;
    QueueGrows(q, job);
    EndsRightAppend(s.imp.replaced, q, job, k, k in s'.imp.snapshot && Matches(s', Final(s'), k));
    if s'.imp.queue != q {
      assert job in s'.imp.queue;
    }
  }

  lemma SyncHandles(imp: Importer, sets: map<Key, Param>, k: Key)
    ensures HandledAt(imp, SetSynced(imp, sets), sets, {}, k) && SetSynced(imp, sets).stamp == imp.stamp
  {
  }

  lemma ForgetHandles(imp: Importer, gone: set<Key>, k: Key)
    requires gone <= imp.managed.Keys
    ensures HandledAt(imp, Forget(imp, gone, map[]), map[], gone, k)
  {
  }

  ghost predicate SameMaps(imp: Importer, imp': Importer) {
    && imp'.snapshot == imp.snapshot && imp'.managed == imp.managed && imp'.seen == imp.seen
    && imp'.pending == imp.pending && imp'.unflushed == imp.unflushed && imp'.stamp == imp.stamp
  }

  /** The maps a batch leaves: synced, and at the end of the full sync without what it left out. */
  lemma FullMapsAre(imp: Importer, id: nat, items: map<Key, Param>, last: bool, up: bool)
    ensures
      var s1 := SetSynced(imp, NotOvertaken(imp, id, items));
      SameMaps(if last then Forget(s1, LeftOut(imp, id, items), map[]) else s1, Full(imp, id, items, last, up))
  {
    var s1 := SetSynced(imp, NotOvertaken(imp, id, items));
    hide SetSynced, NotOvertaken, StagingOf;
    if last { ForgetIgnoresStaging(s1, s1.staging - {id}, LeftOut(imp, id, items)); }
    hide Forget, LeftOut;
  }

  lemma ForgetIgnoresStaging(imp: Importer, staging: map<nat, Staging>, gone: set<Key>)
    requires gone <= imp.managed.Keys
    ensures SameMaps(Forget(imp, gone, map[]), Forget(imp.(staging := staging), gone, map[]))
  {
  }

  lemma FullHandles(imp: Importer, id: nat, items: map<Key, Param>, last: bool, up: bool, k: Key)
    ensures var gone := if last then LeftOut(imp, id, items) else {};
            HandledAt(imp, Full(imp, id, items, last, up), NotOvertaken(imp, id, items), gone, k)
  {
    var sets, gone := NotOvertaken(imp, id, items), LeftOut(imp, id, items);
    SyncHandles(imp, sets, k);
    FullMapsAre(imp, id, items, last, up);
    assert gone <= SetSynced(imp, sets).managed.Keys;
    hide Full, SetSynced, NotOvertaken, LeftOut, Forget;
    if last { ForgetHandles(SetSynced(imp, sets), gone, k); }
  }

  lemma FullOnly(imp: Importer, id: nat, items: map<Key, Param>, last: bool, up: bool, k: Key)
    ensures var sets := NotOvertaken(imp, id, items);
            var gone := if last then LeftOut(imp, id, items) else {};
            var imp' := Full(imp, id, items, last, up);
            && OnlyHandled(imp, imp', sets)
            && (up && (k in sets || k in gone) ==> imp'.queue == imp.queue + [ApplyJob(sets.Keys)])
  {
    FullHandles(imp, id, items, last, up, k);
  }

  lemma FullKeeps(s: Sys, s': Sys, id: nat, items: map<Key, Param>, last: bool, up: bool, k: Key)
    requires KeyInv(s, k) && UpFlag(s.brave, up)
    requires k in items ==> items[k].expires != Some(1.0)
    requires s' == s.(imp := Full(s.imp, id, items, last, up),
                      past := Instructed(s.past, NotOvertaken(s.imp, id, items), if last then LeftOut(s.imp, id, items) else {}))
    ensures KeyInv(s', k)
  {
    FullHandles(s.imp, id, items, last, up, k);
    FullOnly(s.imp, id, items, last, up, k);
    assert k in NotOvertaken(s.imp, id, items) ==> k in items && NotOvertaken(s.imp, id, items)[k] == items[k];
    hide KeyInv, Full, LeftOut, NotOvertaken;
    HandledKeeps(s, s', NotOvertaken(s.imp, id, items), if last then LeftOut(s.imp, id, items) else {}, k);
  }

  lemma DeltaHandles(imp: Importer, ch: map<Key, Change>, up: bool, k: Key)
    ensures HandledAt(imp, Delta(imp, ch, up), Added(ch), Removed(ch).Keys, k)
  {
  }

  lemma DeltaOnly(imp: Importer, ch: map<Key, Change>, up: bool, k: Key)
    ensures var imp' := Delta(imp, ch, up);
            && OnlyHandled(imp, imp', Added(ch))
            && (up && k in ch ==> imp'.queue == imp.queue + [ApplyJob(Added(ch).Keys)])
  {
    DeltaHandles(imp, ch, up, k);
  }

  lemma DeltaKeeps(s: Sys, s': Sys, ch: map<Key, Change>, up: bool, k: Key)
    requires KeyInv(s, k) && UpFlag(s.brave, up)
    requires k in ch && !ch[k].removed ==> ch[k].param.expires != Some(1.0)
    requires s' == s.(imp := Delta(s.imp, ch, up), past := Instructed(s.past, Added(ch), Removed(ch).Keys))
    ensures KeyInv(s', k)
  {
    DeltaHandles(s.imp, ch, up, k);
    DeltaOnly(s.imp, ch, up, k);
    hide KeyInv, Delta;
    HandledKeeps(s, s', Added(ch), Removed(ch).Keys, k);
  }

  lemma BridgeKeeps(s: Sys, s': Sys, k: Key)
    requires KeyInv(s, k)
    requires s' == s.(imp := s.imp.(bridge := s'.imp.bridge, purged := s'.imp.purged, staging := s'.imp.staging))
    ensures KeyInv(s', k)
  {
  }

  ghost predicate PurgeBegun(s: Sys, s': Sys) {
    s' == s.(imp := Purge(s.imp), past := s.past.(store := map[],
        stranded := s.past.stranded - (PurgeSet(s.imp).Keys - RefusedDeletions(s.imp))))
  }

  lemma PurgeKeepsState(s: Sys, s': Sys, k: Key)
    requires KeyInv(s, k) && PurgeBegun(s, s')
    ensures StoreAgrees(s', k) && MapsAgree(s', k) && Traced(s', k) && Flushing(s', k) && Deleting(s', k)
  {
    assert Arrived(s') == Arrived(s);
    hide Overlay, EndsRight, Final, SetsConverge, LostReapplied, Collected, PurgeTombs;
  }

  lemma PurgeKeeps(s: Sys, s': Sys, k: Key)
    requires KeyInv(s, k) && Jobs(s.imp) && PurgeBegun(s, s')
    ensures KeyInv(s', k)
  {
    var job := PurgeJob(|s.imp.replaced| + 1);
    assert Final(s') == Final(s);
    PurgeKeepsState(s, s', k);
    QueueGrows(s.imp.queue, job);
    assert job in s'.imp.queue;
    hide Overlay, EndsRight, Final, StoreAgrees, MapsAgree, Flushing, Deleting;
    assert PurgeTombs(s', k) && LostReapplied(s', k) && Collected(s', k);
  }

  // ── the running job ──

  ghost predicate SameKey(imp: Importer, imp': Importer, k: Key) {
    && (k in imp'.snapshot <==> k in imp.snapshot) && (k in imp.snapshot ==> imp'.snapshot[k] == imp.snapshot[k])
    && (k in imp'.managed <==> k in imp.managed) && (k in imp'.seen <==> k in imp.seen)
  }

  lemma ConnectKeeps(s: Sys, s': Sys, k: Key)
    requires KeyInv(s, k) && Running(s) && s.imp.running.value.conn.None?
    requires s' == s.(imp := Connect(s.imp, s.brave.launch))
    ensures KeyInv(s', k)
  {
    assert Final(s') == Final(s);
  }

  lemma InboxAppend(msgs: seq<Jar>, m: Jar, k: Key, now: nat)
    ensures LiveIn(msgs + [m], k, now) ==> LiveIn(msgs, k, now) || Live(m, k, now)
  {
    if LiveIn(msgs + [m], k, now) && !Live(m, k, now) {
      var i :| 0 <= i < |msgs + [m]| && Live((msgs + [m])[i], k, now);
      assert Live(msgs[i], k, now);
    }
  }

  /** The chunk moved from the job to the messages on the way. */
  ghost predicate Moved(s: Sys, s': Sys, chunk: set<Key>) {
    && Attached(s) && chunk <= s.imp.running.value.todo.Keys
    && s' == s.(imp := Sent(s.imp, chunk),
                brave := s.brave.(inbox := s.brave.inbox + [Restrict(s.imp.running.value.todo, chunk)]),
                past := s.past.(overwritten := s.past.overwritten - chunk))
  }

  lemma SendMoves(s: Sys, s': Sys, chunk: set<Key>, k: Key)
    requires Moved(s, s', chunk)
    ensures Arrived(s') == Arrived(s) + Restrict(s.imp.running.value.todo, chunk)
    ensures Final(s') == Final(s)
    ensures LiveIn(s'.brave.inbox, k, s.now) ==> LiveIn(s.brave.inbox, k, s.now) || TodoLive(s, k)
    ensures TodoLive(s', k) ==> TodoLive(s, k)
  {
    var m := Restrict(s.imp.running.value.todo, chunk);
    OverlayAppend(s.brave.memory, s.brave.inbox, m);
    InboxAppend(s.brave.inbox, m, k, s.now);
  }

  lemma SendKeeps(s: Sys, s': Sys, chunk: set<Key>, k: Key)
    requires KeyInv(s, k) && Moved(s, s', chunk) && 1000 <= s.now
    ensures KeyInv(s', k)
  {
    SendMoves(s, s', chunk, k);
    hide LiveIn, Arrived, Overlay, EndsRight;
    assert StoreAgrees(s', k) && MapsAgree(s', k) && Traced(s', k) && Flushing(s', k) && Deleting(s', k);
    assert SetsConverge(s', k);
    assert LostReapplied(s', k) && Collected(s', k);
  }

  ghost predicate RefusedOne(s: Sys, s': Sys, x: Key) {
    && Attached(s) && x in s.imp.running.value.todo
    && s' == s.(imp := Refused(s.imp, x), past := s.past.(stranded := s'.past.stranded, orphans := s'.past.orphans))
    && s'.past.stranded == (if x in s.imp.managed || x in s.imp.running.value.deletes then s.past.stranded + {x} else s.past.stranded)
    && s'.past.orphans == (if x in s.imp.running.value.deletes then s.past.orphans + {x} else s.past.orphans)
  }

  lemma RefusedKeepsState(s: Sys, s': Sys, x: Key, k: Key)
    requires KeyInv(s, k) && KeyInv(s, x) && RefusedOne(s, s', x)
    ensures StoreAgrees(s', k) && MapsAgree(s', k) && Traced(s', k) && Flushing(s', k) && Deleting(s', k)
  {
    assert Arrived(s') == Arrived(s);
    hide SetsConverge, LostReapplied, Collected, PurgeTombs, Overlay;
  }

  lemma RefusedKeeps(s: Sys, s': Sys, x: Key, k: Key)
    requires KeyInv(s, k) && KeyInv(s, x) && RefusedOne(s, s', x)
    ensures KeyInv(s', k)
  {
    RefusedKeepsState(s, s', x, k);
    if k != x {
      assert k in Final(s') <==> k in Final(s);
      assert k in Final(s) ==> Final(s')[k] == Final(s)[k];
    }
    assert MapsAgree(s, k);
    hide StoreAgrees, MapsAgree, Traced, Flushing, Deleting, EndsRight, Overlay;
  }

  ghost predicate OnlyFailed(imp: Importer, imp': Importer) {
    && imp.running.Some?
    && imp' == imp.(running := None, ready := imp'.ready, readyPid := imp'.readyPid)
    && (imp'.ready.Some? ==> imp'.ready == imp.ready && (imp.running.value.job.PurgeJob? || ReadyQueued(imp.queue)))
  }

  lemma FailOnly(imp: Importer)
    requires imp.running.Some? && Tokens(imp)
    ensures OnlyFailed(imp, Fail(imp))
  {
  }

  lemma {:induction false} ReadyEndsAll(replaced: seq<map<Key, Tomb>>, q: seq<Job>, k: Key, right: bool)
    requires ReadyQueued(q)
    ensures EndsRight(replaced, q, k, right) == EndsRight(replaced, q, k, true)
    decreases |q|
  {
    if !q[0].ReadyJob? {
      if right || After(replaced, q[0], k, right) == After(replaced, q[0], k, true) {
      } else {
        ReadyEndsAll(replaced, q[1..], k, false);
      }
    }
  }

  lemma FailKeeps(s: Sys, s': Sys, k: Key)
    requires KeyInv(s, k) && OnlyFailed(s.imp, s'.imp)
    requires s' == s.(imp := s'.imp, past := s.past.(purgeFailed := s.past.purgeFailed || s.imp.running.value.job.PurgeJob?))
    ensures KeyInv(s', k)
  {
    if InCharge(s') && k in s.imp.snapshot && k !in s.past.stranded {
      var right, right' := Matches(s, Final(s), k), Matches(s', Final(s'), k);
      if s.imp.running.value.job.PurgeJob? {
        ReadyEndsRight(s.imp.replaced, s.imp.queue, k, right, right');
      } else {
        ReadyEndsAll(s.imp.replaced, s.imp.queue, k, right);
        ReadyEndsAll(s.imp.replaced, s.imp.queue, k, right');
      }
    }
    hide EndsRight, Overlay;
    assert StoreAgrees(s', k) && MapsAgree(s', k) && Traced(s', k) && Flushing(s', k) && Deleting(s', k);
    assert Collected(s', k) && LostReapplied(s', k);
  }

  // ── starting and finishing a job ──

  lemma QueueHead(q: seq<Job>)
    requires q != []
    ensures forall x :: x in q <==> x == q[0] || x in q[1..]
    ensures ReadyQueued(q) ==> q[0].ReadyJob? || ReadyQueued(q[1..])
    ensures Collector(q) ==> !q[0].PurgeJob? || Collector(q[1..])
  {
    assert q == [q[0]] + q[1..];
  }

  /** The head job is running; it captured these sets and deletions and dropped the keys in `expired`. */
  ghost predicate StartedWith(imp: Importer, imp': Importer, sets: map<Key, Param>, deletes: map<Key, Tomb>, expired: set<Key>) {
    && imp.queue != [] && imp.running.None?
    && imp' == imp.(queue := imp.queue[1..], dirty := imp'.dirty, snapshot := imp.snapshot - expired,
        managed := imp.managed - expired,
                    running := Some(Run(imp.queue[0], imp.epoch, None, sets + TombParams(deletes), deletes, {})))
  }

  ghost predicate Captures(imp: Importer, imp': Importer, sets: map<Key, Param>, deletes: map<Key, Tomb>,
      expired: set<Key>, k: Key) {
    && imp.queue != []
    && (k in sets ==> k in imp.snapshot && sets[k] == imp.snapshot[k])
    && match imp.queue[0]
       case ApplyJob(keys) =>
         (k in keys && k in imp.snapshot ==> k in sets) && k !in expired && (k in deletes <==> k in imp.pending) &&
             (k in deletes ==> deletes[k] == imp.pending[k])
       case PurgeJob(id) =>
         k !in sets && k !in expired && deletes == PurgeList(imp, id)
       case ReadyJob(_) =>
         && (k in imp.snapshot ==> k in sets || k in expired)
         && (k in deletes <==> k in imp.pending || (k in imp.unflushed && imp.unflushed[k].epoch != imp.epoch))
         && (k in deletes ==> deletes[k] == if k in imp.pending then imp.pending[k] else imp.unflushed[k].tomb)
  }

  lemma StartKeeps(s: Sys, s': Sys, sets: map<Key, Param>, deletes: map<Key, Tomb>, expired: set<Key>, k: Key)
    requires KeyInv(s, k) && StartedWith(s.imp, s'.imp, sets, deletes, expired)
    requires Captures(s.imp, s'.imp, sets, deletes, expired, k)
    requires s' == s.(imp := s'.imp, past := s.past.(stranded := s'.past.stranded, purgeFailed := s.past.purgeFailed &&
        s.imp.queue[0].PurgeJob? && s.imp.queue[0].id < |s.imp.replaced|))
    requires k in s'.past.stranded <==> k in s.past.stranded || (k in s.imp.managed && k in expired)
    requires 1000 <= s.now
    ensures KeyInv(s', k)
  {
    var q := s.imp.queue;
    QueueHead(q);
    assert Arrived(s') == Arrived(s) && Final(s') == Arrived(s) + s'.imp.running.value.todo && Final(s) == Arrived(s);
    StartKeepsState(s, s', sets, deletes, expired, k);
    if InCharge(s) && k in s'.imp.snapshot && k !in s'.past.stranded {
      ReadyEndsRight(s.imp.replaced, q[1..], k, After(s.imp.replaced, q[0], k, Matches(s, Final(s), k)), Matches(s', Final(s'), k));
    }
    hide EndsRight, Overlay, MapsAgree, Traced, Flushing, Deleting;
    assert LostReapplied(s', k) && Collected(s', k) && PurgeTombs(s', k);
  }

  lemma StartKeepsState(s: Sys, s': Sys, sets: map<Key, Param>, deletes: map<Key, Tomb>, expired: set<Key>, k: Key)
    requires KeyInv(s, k) && StartedWith(s.imp, s'.imp, sets, deletes, expired)
    requires Captures(s.imp, s'.imp, sets, deletes, expired, k)
    requires s' == s.(imp := s'.imp, past := s.past.(stranded := s'.past.stranded, purgeFailed := s.past.purgeFailed &&
        s.imp.queue[0].PurgeJob? && s.imp.queue[0].id < |s.imp.replaced|))
    requires k in s'.past.stranded <==> k in s.past.stranded || (k in s.imp.managed && k in expired)
    requires 1000 <= s.now
    ensures StoreAgrees(s', k) && MapsAgree(s', k) && Traced(s', k) && Flushing(s', k) && Deleting(s', k)
    ensures TodoLive(s', k) ==> k in s.imp.snapshot
  {
    hide EndsRight, Overlay, Collected, LostReapplied;
    assert s.imp.queue[0] in s.imp.queue;
  }

  lemma CaptureStarts(imp: Importer, now: nat, k: Key) returns (sets: map<Key, Param>, deletes: map<Key, Tomb>)
    requires imp.queue != [] && imp.running.None? && !imp.queue[0].ReadyJob?
    ensures StartedWith(imp, Capture(imp, now), sets, deletes, {})
    ensures Captures(imp, Capture(imp, now), sets, deletes, {}, k)
  {
    assert imp.snapshot - {} == imp.snapshot && imp.managed - {} == imp.managed;
    if imp.queue[0].ApplyJob? {
      sets, deletes := Restrict(imp.snapshot, imp.queue[0].keys), imp.pending;
    } else {
      sets, deletes := map[], PurgeList(imp, imp.queue[0].id);
    }
  }

  lemma CaptureReapplies(imp: Importer, now: nat)
    requires imp.queue != [] && imp.running.None? && imp.queue[0].ReadyJob? && Capture(imp, now).running.Some?
    ensures var sets, deletes := imp.snapshot - ExpiredKeys(imp, now), imp.pending + LostTombs(imp);
            StartedWith(imp, Capture(imp, now), sets, deletes, ExpiredKeys(imp, now))
  {
    var gone := ExpiredKeys(imp, now);
    var s1 := imp.(snapshot := imp.snapshot - gone, managed := imp.managed - gone, dirty := imp.dirty ||
        gone * imp.managed.Keys != {});
    assert Capture(imp, now) == Start(s1, s1.snapshot, imp.pending + LostTombs(imp));
    hide Capture, LostTombs, ExpiredKeys, TombParams;
  }

  ghost predicate NothingToApply(imp: Importer) {
    imp.snapshot == map[] && imp.pending == map[] && LostTombs(imp) == map[]
  }

  lemma SkipIs(imp: Importer, now: nat)
    requires imp.queue != [] && imp.running.None? && imp.queue[0].ReadyJob?
    ensures if NothingToApply(imp) then Capture(imp, now) == imp.(queue := imp.queue[1..]) else Capture(imp, now).running.Some?
  {
    hide LostTombs, ExpiredKeys, TombParams;
  }

  lemma ReappliesAll(imp: Importer, imp': Importer, now: nat, k: Key)
    requires imp.queue != [] && imp.queue[0].ReadyJob?
    requires k in imp.pending ==> k !in imp.unflushed
    ensures Captures(imp, imp', imp.snapshot - ExpiredKeys(imp, now), imp.pending + LostTombs(imp), ExpiredKeys(imp, now), k)
  {
  }

  lemma SkipKeeps(s: Sys, s': Sys, k: Key)
    requires KeyInv(s, k) && !Running(s) && s.imp.queue != [] && s.imp.queue[0].ReadyJob?
    requires s.imp.snapshot == map[] && s.imp.pending == map[] && LostTombs(s.imp) == map[]
    requires s' == s.(imp := s.imp.(queue := s.imp.queue[1..]), past := s.past.(purgeFailed := false))
    ensures KeyInv(s', k)
  {
    QueueHead(s.imp.queue);
    assert k !in LostTombs(s.imp);
    assert Final(s') == Final(s);
  }

  /** Brave answered everything the run sent. */
  ghost predicate FinishedWith(imp: Importer, imp': Importer, now: nat, done: set<Key>, dropped: set<Key>) {
    && imp.running.Some?
    && var r := imp.running.value;
    && imp' == imp.(running := None, dirty := imp'.dirty, purged := imp'.purged, file := imp'.file,
                    snapshot := imp.snapshot - dropped, managed := imp.managed - dropped,
                    pending := imp.pending - done,
                    unflushed := imp.unflushed + NowHeld(r, Applied(imp, r), now))
    && done == Applied(imp, r)
  }

  lemma FinishesWith(imp: Importer, now: nat)
    requires imp.running.Some?
    ensures FinishedWith(imp, Finish(imp, now), now, Applied(imp, imp.running.value),
                         if imp.running.value.job.PurgeJob? then {} else RefusedSets(imp.running.value))
  {
    var r := imp.running.value;
    var done := Applied(imp, r);
    assert imp.snapshot - {} == imp.snapshot && imp.managed - {} == imp.managed;
  }

  /** What finishing does to k. */
  lemma FinishAt(imp: Importer, imp': Importer, now: nat, done: set<Key>, dropped: set<Key>, k: Key)
    requires FinishedWith(imp, imp', now, done, dropped)
    ensures k in done <==> k in imp.running.value.deletes && Current(imp, k, imp.running.value.deletes[k])
    ensures k in done ==> k in imp'.unflushed && imp'.unflushed[k] == Held(imp.running.value.deletes[k], now,
        imp.running.value.epoch) && k !in imp'.pending
    ensures k !in done ==> (k in imp'.unflushed <==> k in imp.unflushed) && (k in imp.unflushed ==> imp'.unflushed[k] == imp.unflushed[k])
    ensures k !in done ==> (k in imp'.pending <==> k in imp.pending) && (k in imp.pending ==> imp'.pending[k] == imp.pending[k])
    ensures k in imp'.managed <==> k in imp.managed && k !in dropped
    ensures k in imp'.snapshot <==> k in imp.snapshot && k !in dropped
    ensures k in imp'.snapshot ==> imp'.snapshot[k] == imp.snapshot[k]
    ensures imp'.seen == imp.seen && imp'.queue == imp.queue && imp'.running.None? && imp'.epoch == imp.epoch &&
        imp'.ready == imp.ready
    ensures imp'.replaced == imp.replaced && imp'.stamp == imp.stamp
  {
  }

  lemma FinishKeepsMaps(s: Sys, s': Sys, done: set<Key>, dropped: set<Key>, k: Key)
    requires KeyInv(s, k) && Epochs(s) && FinishedWith(s.imp, s'.imp, s.now, done, dropped)
    requires s.imp.running.value.conn.Some? && s.imp.running.value.todo == map[] && s.brave.inbox == []
    requires s' == s.(imp := s'.imp, past := s.past.(stranded := s'.past.stranded))
    requires k in s'.past.stranded <==> k in s.past.stranded || (k in s.imp.managed && k in dropped)
    ensures StoreAgrees(s', k) && MapsAgree(s', k)
  {
    var r := s.imp.running.value;
    FinishAt(s.imp, s'.imp, s.now, done, dropped, k);
    assert r.epoch == s.imp.epoch ==> Attached(s) && s.brave.serving;
    hide FinishedWith, Epochs, LostReapplied, Collected, SetsConverge, PurgeTombs, Overlay, Traced, Flushing;
  }

  lemma FinishKeepsState(s: Sys, s': Sys, done: set<Key>, dropped: set<Key>, k: Key)
    requires KeyInv(s, k) && Epochs(s) && FinishedWith(s.imp, s'.imp, s.now, done, dropped)
    requires s.imp.running.value.conn.Some? && s.imp.running.value.todo == map[] && s.brave.inbox == []
    requires s' == s.(imp := s'.imp, past := s.past.(stranded := s'.past.stranded))
    requires k in s'.past.stranded <==> k in s.past.stranded || (k in s.imp.managed && k in dropped)
    ensures Traced(s', k) && Flushing(s', k)
  {
    var r := s.imp.running.value;
    FinishAt(s.imp, s'.imp, s.now, done, dropped, k);
    assert r.epoch == s.imp.epoch ==> Attached(s) && s.brave.serving;
    assert Arrived(s) == s.brave.memory;
    assert !LiveIn(s.brave.inbox, k, s.now);
    hide FinishedWith, Epochs, LostReapplied, Collected, SetsConverge, PurgeTombs, Overlay, StoreAgrees, LiveIn;
  }

  lemma FinishKeeps(s: Sys, s': Sys, done: set<Key>, dropped: set<Key>, k: Key)
    requires KeyInv(s, k) && Epochs(s) && FinishedWith(s.imp, s'.imp, s.now, done, dropped)
    requires s.imp.running.value.conn.Some? && s.imp.running.value.todo == map[] && s.brave.inbox == []
    requires s' == s.(imp := s'.imp, past := s.past.(stranded := s'.past.stranded))
    requires k in s'.past.stranded <==> k in s.past.stranded || (k in s.imp.managed && k in dropped)
    ensures KeyInv(s', k)
  {
    FinishKeepsMaps(s, s', done, dropped, k);
    FinishKeepsState(s, s', done, dropped, k);
    FinishAt(s.imp, s'.imp, s.now, done, dropped, k);
    assert InCharge(s) && s.imp.running.value.epoch != s.imp.epoch ==> ReadyQueued(s.imp.queue);
    assert Final(s') == Final(s);
    hide FinishedWith, Epochs, EndsRight, Overlay, MapsAgree, Traced, Flushing, Deleting, Final;
  }

  // ── the state file ──

  /** The state file is as it was, or written with nothing new. */
  ghost predicate FileKept(imp: Importer, imp': Importer) {
    || imp'.file == imp.file
    || exists m: Importer :: imp'.file == Some(Content(m)) && WrittenOf(m, imp)
  }

  ghost predicate WrittenOf(m: Importer, imp: Importer) {
    m.managed == imp.managed && m.pending == imp.pending && m.unflushed.Keys <= imp.unflushed.Keys
  }

  lemma SaveKeepsFile(imp: Importer, now: nat, flushMs: nat, up: bool, ok: bool)
    ensures FileKept(imp, Save(imp, now, flushMs, up, ok))
  {
    hide Flushed, Content;
    var s1 := if imp.unflushed != map[] && up then Settle(imp, now, flushMs) else imp;
    assert WrittenOf(s1, imp);
    assert Save(imp, now, flushMs, up, ok).file == imp.file || Save(imp, now, flushMs, up, ok).file == Some(Content(s1));
  }

  lemma DownKeepsFile(imp: Importer, now: nat, flushMs: nat, up: bool, ok: bool)
    ensures FileKept(imp, Down(imp, now, flushMs, up, ok))
  {
    hide Flushed, Content, Save;
    var s1 := Settle(imp, now, flushMs);
    var s2 := s1.(epoch := s1.epoch + 1);
    SaveKeepsFile(s2, now, flushMs, up, ok);
    var imp' := Down(imp, now, flushMs, up, ok);
    assert imp'.file == Save(s2, now, flushMs, up, ok).file && s2.file == imp.file;
    if imp'.file != imp.file {
      var m: Importer :| imp'.file == Some(Content(m)) && WrittenOf(m, s2);
      assert WrittenOf(m, imp);
    }
  }

  lemma FileStaysClean(s: Sys, imp': Importer, k: Key)
    requires MapsAgree(s, k) && FileClean(s.imp, k) && FileKept(s.imp, imp')
    ensures FileClean(imp', k)
  {
    if imp'.file != s.imp.file {
      var m: Importer :| imp'.file == Some(Content(m)) && WrittenOf(m, s.imp);
      assert k in Content(m).pending ==> k in m.pending || k in m.unflushed;
    }
  }

  // ── a new broker ──

  lemma RestartKeeps(s: Sys, s': Sys, k: Key)
    requires KeyInv(s, k) && FileClean(s.imp, k) && 1000 <= s.now && s'.imp == Loaded(s.imp.file)
    requires s' == s.(imp := s'.imp, brave := s'.brave,
                      past := s.past.(store := map[], stranded := s.past.stranded + Forgotten(s.imp),
                                      orphans := s.past.orphans + s.past.stranded + Forgotten(s.imp), purgeFailed := false))
    requires s'.brave == s.brave.(alive := false, diedAt := s'.brave.diedAt, serving := false, epoch := -1, inbox := [])
    ensures KeyInv(s', k)
  {
    hide SetsConverge, LostReapplied, Collected, PurgeTombs, Deleting;
    assert StoreAgrees(s', k) && MapsAgree(s', k) && Traced(s', k) && Flushing(s', k);
    assert !Running(s') && s'.imp.queue == [] && !InCharge(s');
    RestartIdle(s', k);
  }

  lemma RestartIdle(s: Sys, k: Key)
    requires !Running(s) && s.imp.queue == [] && s.imp.replaced == [] && !InCharge(s)
    ensures SetsConverge(s, k) && LostReapplied(s, k) && Collected(s, k) && PurgeTombs(s, k) && Deleting(s, k)
  {
  }

  /** The running job moved on or failed; what it has left to send is no more than before. */
  ghost predicate RunOnly(imp: Importer, imp': Importer) {
    && imp.running.Some?
    && imp' == imp.(running := imp'.running, ready := imp'.ready, readyPid := imp'.readyPid)
    && (imp'.running.Some? ==>
          var r, r' := imp.running.value, imp'.running.value;
          r'.deletes == r.deletes && forall x :: x in r'.todo ==> x in r.todo && r'.todo[x] == r.todo[x])
  }

  lemma ConnectOnly(imp: Importer, launch: nat)
    requires imp.running.Some?
    ensures RunOnly(imp, Connect(imp, launch))
  {
  }

  lemma SentOnly(imp: Importer, chunk: set<Key>)
    requires imp.running.Some?
    ensures RunOnly(imp, Sent(imp, chunk))
  {
  }

  lemma RefusedOnly(imp: Importer, x: Key)
    requires imp.running.Some?
    ensures RunOnly(imp, Refused(imp, x))
  {
  }

  lemma FailedOnly(imp: Importer)
    requires imp.running.Some?
    ensures RunOnly(imp, Fail(imp))
  {
    var s1 := imp.(running := None);
    match imp.running.value.job
    case ApplyJob(_) => assert Fail(imp) == s1.(ready := None, readyPid := None);
    case ReadyJob(t) => assert Fail(imp) == if imp.ready == Some(t) then s1.(ready := None) else s1;
    case PurgeJob(_) => assert Fail(imp) == s1;
  }
}
