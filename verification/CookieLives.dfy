// While no accepted cookie shortens the life of the one before, a cookie the broker gives
// up on because it expired has no older value left alive anywhere
// (src/cookie-bridge/importer.js braveReady).
module CookieLives {
  import opened Cookies
  import opened ImporterState
  import opened BraveReplication
  import opened ReplicationInvariant
  import opened ReplicationProofs
  import opened ReplicationRuns
  import opened StoreAgreement

  /** What the broker may send is as it was. */
  ghost predicate SameToSend(imp: Importer, imp': Importer) {
    imp'.snapshot == imp.snapshot && imp'.running == imp.running
  }

  lemma SaveSendsSame(imp: Importer, now: nat, flushMs: nat, up: bool, ok: bool)
    ensures SameToSend(imp, Save(imp, now, flushMs, up, ok))
  {
    hide Content, Flushed;
  }

  lemma DownSendsSame(imp: Importer, now: nat, flushMs: nat, up: bool, ok: bool)
    ensures SameToSend(imp, Down(imp, now, flushMs, up, ok))
  {
    hide Save, Flushed;
    var s1 := Settle(imp, now, flushMs);
    SaveSendsSame(s1.(epoch := s1.epoch + 1), now, flushMs, up, ok);
  }

  lemma LaunchedSendsSame(imp: Importer, pid: nat, now: nat, flushMs: nat, up: bool, ok: bool)
    ensures SameToSend(imp, Launched(imp, pid, now, flushMs, up, ok))
  {
    hide Down, Ready;
    DownSendsSame(imp, now, flushMs, up, ok);
    var d := Down(imp, now, flushMs, up, ok);
    ReadyIs(d.(launch := d.launch + 1), pid);
  }

  lemma LivesSame(s: Sys, s': Sys, l: Ledger, k: Key)
    requires LifeInv(s, l, k) && SameToSend(s.imp, s'.imp) && s'.brave.inbox == s.brave.inbox
    requires s'.brave.memory == s.brave.memory && s'.brave.disk == s.brave.disk && s'.past == s.past && s'.now == s.now
    ensures LifeInv(s', l, k)
  {
  }

  lemma LivesAtBrave(s: Sys, t: Timing, a: Step, l: Ledger, k: Key)
    requires LifeInv(s, l, k) && Enabled(s, t, a) && BraveStep(a)
    ensures LifeInv(NextBrave(s, t, a), l, k)
  {
    hide Down, Launched, Bounded;
    match a
    case Tick(later) =>
    case Commit(keys) => assert Bounded(Committed(s.brave, keys).disk, l, k) by { BoundedCommit(s.brave, keys, l, k); }
    case SiteWrite(x) => assert Bounded(s.brave.memory - {x}, l, k) by { BoundedParts(s.brave.memory, map[], {x}, l, k); }
    case Process =>
      BoundedParts(s.brave.memory, s.brave.inbox[0], {}, l, k);
      assert forall m :: m in s.brave.inbox[1..] ==> m in s.brave.inbox;
    case Die =>
    case DownReport(up, ok) => DownSendsSame(s.imp, s.now, t.flushMs, up, ok);
    case Launch(kept, pid, up, ok) =>
      LaunchedSendsSame(s.imp, pid, s.now, t.flushMs, up, ok);
      BoundedParts(s.brave.disk, map[], s.brave.disk.Keys - kept, l, k);
    case LatePipe(pid, up, ok) => LaunchedSendsSame(s.imp, pid, s.now, t.flushMs, up, ok);
  }

  lemma BoundedParts(j: Jar, m: Jar, without: set<Key>, l: Ledger, k: Key)
    requires Bounded(j, l, k)
    ensures Bounded(m, l, k) ==> Bounded(j + m, l, k)
    ensures Bounded(j - without, l, k)
  {
  }

  lemma BoundedCommit(b: Brave, keys: set<Key>, l: Ledger, k: Key)
    requires Bounded(b.memory, l, k) && Bounded(b.disk, l, k)
    ensures Bounded(Committed(b, keys).disk, l, k)
  {
  }

  lemma BoundedTold(j: Jar, l: Ledger, sets: map<Key, Param>, gone: set<Key>, k: Key)
    requires Bounded(j, l, k) && (k in sets && k in l.last ==> Within(l.last[k], sets[k]))
    ensures Bounded(j, Told(l, sets, gone), k)
  {
  }

  lemma LivesTold(s: Sys, s': Sys, sets: map<Key, Param>, gone: set<Key>, l: Ledger, k: Key)
    requires LifeInv(s, l, k) && (k in sets && k in l.last ==> Within(l.last[k], sets[k]))
    requires HandledAt(s.imp, s'.imp, sets, gone, k) && s'.imp.running == s.imp.running
    requires s' == s.(imp := s'.imp, past := Instructed(s.past, sets, gone))
    ensures LifeInv(s', Told(l, sets, gone), k)
  {
    var l' := Told(l, sets, gone);
    forall j: Jar | Bounded(j, l, k) ensures Bounded(j, l', k) { BoundedTold(j, l, sets, gone, k); }
    hide Bounded;
    assert ValuesBounded(s', l', k);
    assert Lapsed(s', l', k);
  }

  lemma LivesAtBridge(s: Sys, t: Timing, a: Step, l: Ledger, k: Key)
    requires LifeInv(s, l, k) && Enabled(s, t, a) && BridgeStep(a) && Lengthens(s, a, l, k)
    ensures LifeInv(NextBridge(s, a), NextLedger(s, t, a, l), k)
  {
    hide LifeInv, Full, Delta, Told, HandledAt, NotOvertaken, LeftOut, Added, Removed;
    var s' := NextBridge(s, a);
    match a
    case FullBatch(id, items, last, up) =>
      FullHandles(s.imp, id, items, last, up, k);
      FullOnly(s.imp, id, items, last, up, k);
      LivesTold(s, s', SetsOf(s, a), GoneOf(s, a), l, k);
    case DeltaMessage(ch, up) =>
      DeltaHandles(s.imp, ch, up, k);
      DeltaOnly(s.imp, ch, up, k);
      LivesTold(s, s', SetsOf(s, a), GoneOf(s, a), l, k);
    case BridgeConnects(id) => LivesSame(s, s', l, k);
    case BridgeCloses(id) => LivesSame(s, s', l, k);
  }

  lemma LivesAtBroker(s: Sys, t: Timing, a: Step, l: Ledger, k: Key)
    requires LifeInv(s, l, k) && Enabled(s, t, a) && BrokerStep(a)
    ensures LifeInv(NextBroker(s, t, a), NextLedger(s, t, a, l), k)
  {
    hide Save, PurgeSet, RefusedDeletions, Ready, Forgotten;
    match a
    case EnsureBrave(pid) => ReadyIs(s.imp, pid);
    case PurgeRequest =>
    case SaveState(up, ok) => SaveSendsSame(s.imp, s.now, t.flushMs, up, ok);
    case BrokerRestart =>
  }

  lemma LivesStarted(s: Sys, s': Sys, sets: map<Key, Param>, deletes: map<Key, Tomb>, expired: set<Key>, l: Ledger, k: Key)
    requires LifeInv(s, l, k) && StartedWith(s.imp, s'.imp, sets, deletes, expired)
    requires k in sets ==> k in s.imp.snapshot && sets[k] == s.imp.snapshot[k]
    requires k in expired ==> k in s.imp.snapshot && IsExpired(s.imp.snapshot[k], s.now)
    requires k in deletes ==> DeadTomb(deletes[k])
    requires s' == s.(imp := s'.imp, past := s'.past) && (k in s'.past.stranded ==> k in s.past.stranded || k in expired)
    ensures LifeInv(s', l, k)
  {
  }

  lemma LivesAtStart(s: Sys, t: Timing, l: Ledger, k: Key)
    requires LifeInv(s, l, k) && KeyInv(s, k) && Enabled(s, t, JobStart)
    ensures LifeInv(NextJob(s, t, JobStart), l, k)
  {
    var s' := NextJob(s, t, JobStart);
    var imp, imp' := s.imp, s'.imp;
    assert MapsAgree(s, k) && PurgeTombs(s, k) && imp.queue[0] in imp.queue;
    hide KeyInv, Capture, StartedWith, LifeInv, NothingToApply;
    if imp.queue[0].ReadyJob? {
      SkipIs(imp, s.now);
      if NothingToApply(imp) {
        LivesSame(s, s'.(past := s.past), l, k);
        LivesRetold(s'.(past := s.past), s', l, k);
      } else {
        CaptureReapplies(imp, s.now);
        LivesReapplied(s, s', l, k);
      }
    } else {
      var sets, deletes := CaptureStarts(imp, s.now, k);
      StartedSame(imp, imp', sets, deletes);
      LivesStarted(s, s', sets, deletes, {}, l, k);
    }
  }

  lemma LivesRetold(s: Sys, s': Sys, l: Ledger, k: Key)
    requires LifeInv(s, l, k) && s' == s.(past := s'.past) && (k in s'.past.stranded ==> k in s.past.stranded)
    ensures LifeInv(s', l, k)
  {
  }

  lemma StartedSame(imp: Importer, imp': Importer, sets: map<Key, Param>, deletes: map<Key, Tomb>)
    requires StartedWith(imp, imp', sets, deletes, {})
    ensures imp'.managed == imp.managed
  {
  }

  lemma LivesReapplied(s: Sys, s': Sys, l: Ledger, k: Key)
    requires LifeInv(s, l, k) && MapsAgree(s, k)
    requires var sets, deletes := s.imp.snapshot - ExpiredKeys(s.imp, s.now), s.imp.pending + LostTombs(s.imp);
             StartedWith(s.imp, s'.imp, sets, deletes, ExpiredKeys(s.imp, s.now))
    requires s' == s.(imp := s'.imp, past := s.past.(stranded := s.past.stranded + (s.imp.managed.Keys - s'.imp.managed.Keys),
                                                      purgeFailed := s'.past.purgeFailed))
    ensures LifeInv(s', l, k)
  {
    var sets, deletes := s.imp.snapshot - ExpiredKeys(s.imp, s.now), s.imp.pending + LostTombs(s.imp);
    assert s'.imp.managed == s.imp.managed - ExpiredKeys(s.imp, s.now);
    assert k in deletes ==> DeadTomb(deletes[k]);
    hide LifeInv, StartedWith;
    LivesStarted(s, s', sets, deletes, ExpiredKeys(s.imp, s.now), l, k);
  }

  lemma LivesAtFinish(s: Sys, t: Timing, l: Ledger, k: Key)
    requires LifeInv(s, l, k) && Enabled(s, t, JobFinish)
    ensures LifeInv(NextJob(s, t, JobFinish), NextLedger(s, t, JobFinish, l), k)
  {
    var r := s.imp.running.value;
    FinishesWith(s.imp, s.now);
    FinishAt(s.imp, Finish(s.imp, s.now), s.now, Applied(s.imp, r), if r.job.PurgeJob? then {} else RefusedSets(r), k);
    hide Finish, FinishedWith, Applied;
  }

  /** What is left to send of k is no more than before. */
  lemma LivesAtRun(s: Sys, s': Sys, l: Ledger, l': Ledger, k: Key)
    requires LifeInv(s, l, k) && RunOnly(s.imp, s'.imp) && l'.last == l.last && l'.forgotten == l.forgotten
    requires s'.brave.memory == s.brave.memory && s'.brave.disk == s.brave.disk && s'.now == s.now
    requires s'.brave.inbox == s.brave.inbox || (exists chunk :: s'.brave.inbox == s.brave.inbox + [Restrict(s.imp.running.value.todo, chunk)])
    requires k in l.refused ==> k in l'.refused
    requires k in s'.past.stranded ==> k in s.past.stranded || k in l'.refused
    ensures LifeInv(s', l', k)
  {
    assert ValuesBounded(s', l', k);
  }

  lemma LivesAtJob(s: Sys, t: Timing, a: Step, l: Ledger, k: Key)
    requires LifeInv(s, l, k) && Enabled(s, t, a) && (a.JobConnect? || a.JobSend? || a.JobRefused? || a.JobFail?)
    ensures LifeInv(NextJob(s, t, a), NextLedger(s, t, a, l), k)
  {
    hide LifeInv, Connect, Sent, Refused, Fail, RunOnly, Restrict;
    var s', l' := NextJob(s, t, a), NextLedger(s, t, a, l);
    match a
    case JobConnect =>
      ConnectOnly(s.imp, s.brave.launch);
      LivesAtRun(s, s', l, l', k);
    case JobSend(chunk) =>
      SentOnly(s.imp, chunk);
      assert s'.brave.inbox == s.brave.inbox + [Restrict(s.imp.running.value.todo, chunk)];
      LivesAtRun(s, s', l, l', k);
    case JobRefused(x) =>
      RefusedOnly(s.imp, x);
      LivesAtRun(s, s', l, l', k);
    case JobFail =>
      FailedOnly(s.imp);
      LivesAtRun(s, s', l, l', k);
  }

  lemma LivesKept(s: Sys, t: Timing, a: Step, l: Ledger, k: Key)
    requires Inv(s, t) && LifeInv(s, l, k) && Enabled(s, t, a) && Lengthens(s, a, l, k)
    ensures LifeInv(Next(s, t, a), NextLedger(s, t, a, l), k)
  {
    assert KeyInv(s, k);
    hide Inv, KeyInv, LifeInv, NextBrave, NextBridge, NextBroker, NextJob, Enabled;
    if BraveStep(a) { LivesAtBrave(s, t, a, l, k); }
    else if BridgeStep(a) { LivesAtBridge(s, t, a, l, k); }
    else if BrokerStep(a) { LivesAtBroker(s, t, a, l, k); }
    else if a.JobStart? { LivesAtStart(s, t, l, k); }
    else if a.JobFinish? { LivesAtFinish(s, t, l, k); }
    else { LivesAtJob(s, t, a, l, k); }
  }

  lemma {:induction false} LivesOverRun(s0: Sys, l0: Ledger, t: Timing, steps: seq<Step>, s: Sys, l: Ledger, k: Key)
    requires Inv(s0, t) && Timely(t) && LifeInv(s0, l0, k) && Accounts(s0, l0, t, steps, s, l) && AllLengthen(s0, l0, t, steps, k)
    ensures Inv(s, t) && LifeInv(s, l, k)
    decreases |steps|
  {
    if steps != [] {
      hide Inv, LifeInv, Next, NextLedger, Lengthens;
      InvKept(s0, t, steps[0]);
      LivesKept(s0, t, steps[0], l0, k);
      LivesOverRun(Next(s0, t, steps[0]), NextLedger(s0, t, steps[0], l0), t, steps[1..], s, l, k);
    }
  }

  /** On a run whose accepted cookies of k never expire before the one they replace, a key the broker gave up on has no live value in
      Brave, on disk or on its way, unless Brave refused it or a restart forgot it. */
  lemma NothingOlderLives(s0: Sys, t: Timing, steps: seq<Step>, s: Sys, l: Ledger, k: Key)
    requires Init(s0) && Timely(t) && Accounts(s0, EMPTY, t, steps, s, l) && AllLengthen(s0, EMPTY, t, steps, k)
    requires k in s.past.stranded && k !in l.refused && k !in l.forgotten
    ensures !LiveSomewhere(s, k)
  {
    InitHolds(s0, t);
    LivesOverRun(s0, EMPTY, t, steps, s, l, k);
    assert Clock(s, t);
    forall j: Jar | Bounded(j, l, k) ensures !Live(j, k, s.now) { LapsedIsDead(j, s, l, k); }
    hide Bounded, Inv, Accounts, AllLengthen, Init;
  }

  lemma LapsedIsDead(j: Jar, s: Sys, l: Ledger, k: Key)
    requires Bounded(j, l, k) && 1000 <= s.now && (k in l.last ==> IsExpired(l.last[k], s.now))
    ensures !Live(j, k, s.now)
  {
    if k in j { ExpiresAtDeadline(j[k], s.now); }
    if k in l.last { ExpiresAtDeadline(l.last[k], s.now); }
  }
}
