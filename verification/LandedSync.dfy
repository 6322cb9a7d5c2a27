// What a full sync that got through settles for the broker's life: nothing only an earlier
// broker synced is left, and while the bridge stays, every pending deletion has a job that
// is not a purge (src/cookie-bridge/importer.js _onFull, _applyNow).
module LandedSync {
  import opened Cookies
  import opened ImporterState
  import opened BraveReplication
  import opened ReplicationInvariant
  import opened ReplicationProofs
  import opened ReplicationRuns
  import opened ReplicationTheorems
  import opened RemovedForGood
  import BridgeConvergence

  /** k is managed only with a value: not by an earlier broker's file alone. */
  ghost predicate Sourced(imp: Importer, k: Key) {
    k in imp.managed ==> k in imp.snapshot
  }

  /** ... and so is whatever a full sync in progress included. */
  ghost predicate StagedSourced(imp: Importer, k: Key) {
    (exists id :: id in imp.staging && k in imp.staging[id].keys) ==> Sourced(imp, k)
  }

  /** The running job has the pending deletion. */
  ghost predicate Carries(s: Sys, k: Key)
    requires k in s.imp.pending
  {
    Running(s) && k in s.imp.running.value.deletes && s.imp.running.value.deletes[k] == s.imp.pending[k]
  }

  /** A deletion pending for the Brave in charge has a job that is not a purge. */
  ghost predicate Served(s: Sys, k: Key) {
    InCharge(s) && k in s.imp.pending ==> Collector(s.imp.queue) || (Carries(s, k) && !PurgeRunning(s))
  }

  ghost predicate Landed(s: Sys, k: Key) {
    Sourced(s.imp, k) && Served(s, k)
  }

  // ── managed and snapshot go together ──

  /** Nothing is staged anew, and k is managed without a value only if it was. */
  ghost predicate Together(imp: Importer, imp': Importer, k: Key) {
    && (forall id :: id in imp'.staging ==> id in imp.staging && imp'.staging[id] == imp.staging[id])
    && (Sourced(imp, k) ==> Sourced(imp', k))
  }

  lemma TogetherStays(imp: Importer, imp': Importer, k: Key)
    requires StagedSourced(imp, k) && Together(imp, imp', k)
    ensures StagedSourced(imp', k)
  {
  }

  lemma TogetherAtReady(imp: Importer, pid: nat, k: Key)
    ensures Together(imp, Ready(imp, pid), k)
  {
    hide Ready;
    ReadyIs(imp, pid);
  }

  lemma TogetherAtDown(imp: Importer, now: nat, flushMs: nat, up: bool, ok: bool, k: Key)
    requires forall x :: x in imp.unflushed ==> imp.unflushed[x].epoch <= imp.epoch
    ensures Together(imp, Down(imp, now, flushMs, up, ok), k)
  {
    hide Down, Flushed;
    DownSettles(imp, now, flushMs, up, ok);
  }

  lemma TogetherAtLaunched(imp: Importer, pid: nat, now: nat, flushMs: nat, up: bool, ok: bool, k: Key)
    requires forall x :: x in imp.unflushed ==> imp.unflushed[x].epoch <= imp.epoch
    ensures Together(imp, Launched(imp, pid, now, flushMs, up, ok), k)
  {
    hide Down, Ready;
    TogetherAtDown(imp, now, flushMs, up, ok, k);
    var s1 := Down(imp, now, flushMs, up, ok);
    TogetherAtReady(s1.(launch := s1.launch + 1), pid, k);
  }

  lemma TogetherAtBrave(s: Sys, t: Timing, a: Step, k: Key)
    requires Inv(s, t) && Enabled(s, t, a) && BraveStep(a)
    ensures Together(s.imp, NextBrave(s, t, a).imp, k)
  {
    UnflushedEpochs(s, t);
    hide Inv, Down, Launched, Started, Committed, MarkUncommitted, Dead;
    match a
    case DownReport(up, ok) => TogetherAtDown(s.imp, s.now, t.flushMs, up, ok, k);
    case Launch(_, pid, up, ok) => TogetherAtLaunched(s.imp, pid, s.now, t.flushMs, up, ok, k);
    case LatePipe(pid, up, ok) => TogetherAtLaunched(s.imp, pid, s.now, t.flushMs, up, ok, k);
    case _ =>
  }

  lemma TogetherAtBroker(s: Sys, t: Timing, a: Step, k: Key)
    requires BrokerStep(a) && !a.BrokerRestart?
    ensures Together(s.imp, NextBroker(s, t, a).imp, k)
  {
    hide Ready, Save, PurgeSet, RefusedDeletions;
    match a
    case EnsureBrave(pid) => TogetherAtReady(s.imp, pid, k);
    case SaveState(up, ok) => var _ := SaveSettles(s.imp, s.now, t.flushMs, up, ok);
    case _ =>
  }

  lemma TogetherAtStarted(imp: Importer, imp': Importer, sets: map<Key, Param>, deletes: map<Key, Tomb>, expired: set<Key>, k: Key)
    requires StartedWith(imp, imp', sets, deletes, expired)
    ensures Together(imp, imp', k)
  {
    hide TombParams;
  }

  lemma TogetherAtStart(imp: Importer, now: nat, k: Key)
    requires imp.queue != [] && imp.running.None?
    ensures Together(imp, Capture(imp, now), k)
  {
    hide Capture, NothingToApply, StartedWith, Captures, Sourced;
    if imp.queue[0].ReadyJob? {
      SkipIs(imp, now);
      if NothingToApply(imp) {
        PopTogether(imp, k);
      } else {
        CaptureReapplies(imp, now);
        TogetherAtStarted(imp, Capture(imp, now), imp.snapshot - ExpiredKeys(imp, now), imp.pending + LostTombs(imp), ExpiredKeys(imp, now), k);
      }
    } else {
      var sets, deletes := CaptureStarts(imp, now, k);
      TogetherAtStarted(imp, Capture(imp, now), sets, deletes, {}, k);
    }
  }

  lemma PopTogether(imp: Importer, k: Key)
    requires imp.queue != []
    ensures Together(imp, imp.(queue := imp.queue[1..]), k)
  {
  }

  lemma TogetherAtFinish(imp: Importer, now: nat, k: Key)
    requires imp.running.Some?
    ensures Together(imp, Finish(imp, now), k)
  {
    hide Finish, NowHeld, Applied, RefusedSets;
    FinishesWith(imp, now);
  }

  lemma TogetherAtRun(imp: Importer, imp': Importer, k: Key)
    requires RunOnly(imp, imp')
    ensures Together(imp, imp', k)
  {
  }

  lemma TogetherAtJob(s: Sys, t: Timing, a: Step, k: Key)
    requires Enabled(s, t, a) && !BraveStep(a) && !BridgeStep(a) && !BrokerStep(a)
    ensures Together(s.imp, NextJob(s, t, a).imp, k)
  {
    hide Capture, Finish, Restrict, Connect, Sent, Refused, Fail, RunOnly, Together;
    match a
    case JobStart => TogetherAtStart(s.imp, s.now, k);
    case JobConnect =>
      ConnectOnly(s.imp, s.brave.launch);
      TogetherAtRun(s.imp, Connect(s.imp, s.brave.launch), k);
    case JobSend(chunk) =>
      SentOnly(s.imp, chunk);
      TogetherAtRun(s.imp, Sent(s.imp, chunk), k);
    case JobRefused(x) =>
      RefusedOnly(s.imp, x);
      TogetherAtRun(s.imp, Refused(s.imp, x), k);
    case JobFinish => TogetherAtFinish(s.imp, s.now, k);
    case JobFail =>
      FailedOnly(s.imp);
      TogetherAtRun(s.imp, Fail(s.imp), k);
  }

  // ── messages ──

  lemma HandledSourced(imp: Importer, imp': Importer, sets: map<Key, Param>, gone: set<Key>, k: Key)
    requires HandledAt(imp, imp', sets, gone, k)
    ensures Sourced(imp, k) || k in sets || k in gone ==> Sourced(imp', k)
  {
  }

  lemma FullSourced(imp: Importer, id: nat, items: map<Key, Param>, last: bool, up: bool, k: Key)
    requires StagedSourced(imp, k)
    ensures var imp' := Full(imp, id, items, last, up);
      StagedSourced(imp', k) && (Sourced(imp, k) || last ==> Sourced(imp', k))
  {
    var sets, gone := NotOvertaken(imp, id, items), if last then LeftOut(imp, id, items) else {};
    FullHandles(imp, id, items, last, up, k);
    LeftOutOr(imp, id, items, k);
    hide Full, LeftOut, NotOvertaken, HandledAt, Sourced;
    BridgeConvergence.FullStaging(imp, id, items, last, up);
    HandledSourced(imp, Full(imp, id, items, last, up), sets, gone, k);
    NeverManaged(imp, Full(imp, id, items, last, up), sets, gone, k);
  }

  lemma NeverManaged(imp: Importer, imp': Importer, sets: map<Key, Param>, gone: set<Key>, k: Key)
    requires HandledAt(imp, imp', sets, gone, k)
    ensures k !in imp.managed && k !in sets ==> Sourced(imp', k)
  {
  }

  /** A full sync's end leaves out every managed key it did not include. */
  lemma LeftOutOr(imp: Importer, id: nat, items: map<Key, Param>, k: Key)
    ensures k in imp.managed ==>
      k in NotOvertaken(imp, id, items) || (id in imp.staging && k in imp.staging[id].keys) || k in LeftOut(imp, id, items)
  {
    hide NotOvertaken;
  }

  lemma DeltaSourced(imp: Importer, ch: map<Key, Change>, up: bool, k: Key)
    requires StagedSourced(imp, k)
    ensures var imp' := Delta(imp, ch, up);
      StagedSourced(imp', k) && (Sourced(imp, k) ==> Sourced(imp', k))
  {
    DeltaHandles(imp, ch, up, k);
    var imp' := Delta(imp, ch, up);
    DeltaStages(imp, ch, up, k);
    hide Delta, Added, Removed, HandledAt, Sourced;
    HandledSourced(imp, imp', Added(ch), Removed(ch).Keys, k);
  }

  lemma DeltaStages(imp: Importer, ch: map<Key, Change>, up: bool, k: Key)
    ensures var imp' := Delta(imp, ch, up);
      forall id :: id in imp'.staging && k in imp'.staging[id].keys ==> id in imp.staging && (k in imp.staging[id].keys || k in Added(ch))
  {
    hide Added, Removed, Identities, DeletedIdentity, SyncDirties;
    var imp' := Delta(imp, ch, up);
    assert imp'.staging.Keys == imp.staging.Keys && forall id :: id in imp.staging ==> imp'.staging[id] == Touch(imp.staging[id], ch);
    hide Delta;
  }

  // ── pending deletions ──

  lemma Joined(q: seq<Job>, j: Job)
    requires !j.PurgeJob?
    ensures Collector(q + [j])
  {
    assert j in q + [j];
  }

  /** A message handled while Brave is up queues an apply for whatever is pending after it. */
  lemma FullQueues(imp: Importer, id: nat, items: map<Key, Param>, last: bool, up: bool, k: Key)
    ensures var imp' := Full(imp, id, items, last, up);
      up && k in imp'.pending ==> imp'.queue == imp.queue + [ApplyJob(NotOvertaken(imp, id, items).Keys)]
  {
    hide NotOvertaken, LeftOut, StagingOf, Identities, DeletedIdentity, SyncDirties;
  }

  lemma DeltaQueues(imp: Importer, ch: map<Key, Change>, up: bool, k: Key)
    ensures var imp' := Delta(imp, ch, up);
      up && k in imp'.pending ==> imp'.queue == imp.queue + [ApplyJob(Added(ch).Keys)]
  {
    hide Added, Removed, Touch, Identities, DeletedIdentity, SyncDirties;
  }

  lemma ServedAtMessage(s: Sys, a: Step, k: Key)
    requires (a.FullBatch? || a.DeltaMessage?) && UpFlag(s.brave, a.up)
    ensures Served(NextBridge(s, a), k)
  {
    hide Full, Delta, NotOvertaken, LeftOut, Added, Removed, Collector, Carries;
    if a.FullBatch? {
      FullQueues(s.imp, a.bridge, a.items, a.last, a.up, k);
      Joined(s.imp.queue, ApplyJob(NotOvertaken(s.imp, a.bridge, a.items).Keys));
    } else {
      DeltaQueues(s.imp, a.changes, a.up, k);
      Joined(s.imp.queue, ApplyJob(Added(a.changes).Keys));
    }
  }

  /** Brave's side changed nothing about k's deletion, and nobody came newly into charge. */
  lemma ServedStays(s: Sys, s': Sys, k: Key)
    requires Served(s, k) && (InCharge(s') ==> InCharge(s))
    requires k in s'.imp.pending ==> k in s.imp.pending && s'.imp.pending[k] == s.imp.pending[k]
    requires Collector(s.imp.queue) ==> Collector(s'.imp.queue)
    requires s'.imp.running == s.imp.running
    ensures Served(s', k)
  {
  }

  lemma ServedByReady(s: Sys, k: Key)
    requires ReadyQueued(s.imp.queue)
    ensures Served(s, k)
  {
    var j :| j in s.imp.queue && j.ReadyJob?;
  }

  lemma LaunchReadies(imp: Importer, pid: nat, now: nat, flushMs: nat, up: bool, ok: bool)
    requires forall x :: x in imp.unflushed ==> imp.unflushed[x].epoch <= imp.epoch
    ensures ReadyQueued(Launched(imp, pid, now, flushMs, up, ok).queue)
  {
    hide Down, Ready;
    DownSettles(imp, now, flushMs, up, ok);
    var s1 := Down(imp, now, flushMs, up, ok);
    var s2 := s1.(launch := s1.launch + 1);
    ReadyIs(s2, pid);
    assert ReadyJob(s2.token) in s2.queue + [ReadyJob(s2.token)];
  }

  lemma ServedAtBrave(s: Sys, t: Timing, a: Step, k: Key)
    requires Inv(s, t) && Enabled(s, t, a) && BraveStep(a) && Served(s, k)
    ensures Served(NextBrave(s, t, a), k)
  {
    UnflushedEpochs(s, t);
    hide Inv, Down, Launched, Started, Committed, MarkUncommitted, Collector, Carries, ReadyQueued;
    if a.Launch? {
      LaunchReadies(s.imp, a.pid, s.now, t.flushMs, a.up, a.saved);
      ServedByReady(NextBrave(s, t, a), k);
    }
  }

  lemma ServedAtBroker(s: Sys, t: Timing, a: Step, k: Key)
    requires Served(s, k) && (a.EnsureBrave? || a.SaveState?)
    ensures Served(NextBroker(s, t, a), k)
  {
    hide Ready, Save, ReadyQueued;
    match a
    case EnsureBrave(pid) =>
      ReadyIs(s.imp, pid);
      if s.imp.queue == Ready(s.imp, pid).queue {
        hide *;
      } else {
        Joined(s.imp.queue, ReadyJob(s.imp.token));
      }
    case SaveState(up, ok) =>
      var _ := SaveSettles(s.imp, s.now, t.flushMs, up, ok);
  }

  lemma CarriesAll(imp: Importer, imp': Importer, sets: map<Key, Param>, deletes: map<Key, Tomb>, expired: set<Key>, k: Key)
    requires StartedWith(imp, imp', sets, deletes, expired) && Captures(imp, imp', sets, deletes, expired, k)
    ensures imp'.pending == imp.pending && imp'.running.Some? && imp'.running.value.job == imp.queue[0]
    ensures !imp.queue[0].PurgeJob? && k in imp.pending ==> k in imp'.running.value.deletes && imp'.running.value.deletes[k] == imp.pending[k]
  {
    hide TombParams;
  }

  /** A job other than a purge starts with every pending deletion. */
  lemma StartCarries(imp: Importer, now: nat, k: Key)
    requires imp.queue != [] && imp.running.None? && (k in imp.pending ==> k !in imp.unflushed)
    ensures var imp' := Capture(imp, now);
      && imp'.pending == imp.pending
      && (!imp.queue[0].PurgeJob? && k in imp.pending ==>
            imp'.running.Some? && imp'.running.value.job == imp.queue[0] && k in imp'.running.value.deletes &&
              imp'.running.value.deletes[k] == imp.pending[k])
  {
    hide Capture, StartedWith, Captures;
    if imp.queue[0].ReadyJob? {
      SkipIs(imp, now);
      if !NothingToApply(imp) {
        CaptureReapplies(imp, now);
        ReappliesAll(imp, Capture(imp, now), now, k);
        CarriesAll(imp, Capture(imp, now), imp.snapshot - ExpiredKeys(imp, now), imp.pending + LostTombs(imp), ExpiredKeys(imp, now), k);
      }
    } else {
      var sets, deletes := CaptureStarts(imp, now, k);
      CarriesAll(imp, Capture(imp, now), sets, deletes, {}, k);
    }
    hide LostTombs, ExpiredKeys;
  }

  lemma ServedAtStart(s: Sys, t: Timing, k: Key)
    requires Inv(s, t) && Enabled(s, t, JobStart) && Served(s, k)
    ensures Served(NextJob(s, t, JobStart), k)
  {
    assert KeyInv(s, k) && MapsAgree(s, k);
    hide Inv, KeyInv, Capture, Collector;
    StartCarries(s.imp, s.now, k);
    CapturePops(s.imp, s.now);
    QueueHead(s.imp.queue);
  }

  lemma ServedAtFinish(s: Sys, t: Timing, k: Key)
    requires Enabled(s, t, JobFinish) && Served(s, k)
    ensures Served(NextJob(s, t, JobFinish), k)
  {
    var r := s.imp.running.value;
    FinishesWith(s.imp, s.now);
    FinishAt(s.imp, Finish(s.imp, s.now), s.now, Applied(s.imp, r), if r.job.PurgeJob? then {} else RefusedSets(r), k);
    hide Finish, FinishedWith, Applied, Collector;
  }

  lemma ServedAtFail(s: Sys, t: Timing, k: Key)
    requires Inv(s, t) && Enabled(s, t, JobFail) && Served(s, k)
    ensures Served(NextJob(s, t, JobFail), k)
  {
    FailOnly(s.imp);
    hide Inv, Fail;
  }

  lemma ServedAtRun(s: Sys, t: Timing, a: Step, k: Key)
    requires Enabled(s, t, a) && (a.JobConnect? || a.JobSend? || a.JobRefused?) && Served(s, k)
    ensures Served(NextJob(s, t, a), k)
  {
    hide Restrict, Collector;
  }

  lemma ServedAtJob(s: Sys, t: Timing, a: Step, k: Key)
    requires Inv(s, t) && Enabled(s, t, a) && !BraveStep(a) && !BridgeStep(a) && !BrokerStep(a) && Served(s, k)
    ensures Served(NextJob(s, t, a), k)
  {
    hide Inv, Served, NextJob;
    match a
    case JobStart => ServedAtStart(s, t, k);
    case JobFinish => ServedAtFinish(s, t, k);
    case JobFail => ServedAtFail(s, t, k);
    case _ => ServedAtRun(s, t, a, k);
  }

  // ── a step of Brave's side, and a message ──

  /** Nothing Brave's side does while the bridge stays undoes a full sync that got through. */
  lemma LandedStays(s: Sys, t: Timing, a: Step, k: Key)
    requires Inv(s, t) && Enabled(s, t, a) && !BridgeStep(a) && !a.PurgeRequest? && !a.BrokerRestart?
    ensures StagedSourced(s.imp, k) ==> StagedSourced(Next(s, t, a).imp, k)
    ensures Landed(s, k) ==> Landed(Next(s, t, a), k)
  {
    hide Inv, NextBrave, NextBroker, NextJob, Enabled, StagedSourced, Sourced, Served;
    if BraveStep(a) {
      TogetherAtBrave(s, t, a, k);
      if Landed(s, k) { ServedAtBrave(s, t, a, k); }
    } else if BrokerStep(a) {
      TogetherAtBroker(s, t, a, k);
      if Landed(s, k) { ServedAtBroker(s, t, a, k); }
    } else {
      TogetherAtJob(s, t, a, k);
      if Landed(s, k) { ServedAtJob(s, t, a, k); }
    }
    if StagedSourced(s.imp, k) { TogetherStays(s.imp, Next(s, t, a).imp, k); }
  }

  /** The end of a full sync settles every key. */
  lemma FullLands(s: Sys, t: Timing, a: Step, k: Key)
    requires Enabled(s, t, a) && a.FullBatch? && StagedSourced(s.imp, k)
    ensures var s' := Next(s, t, a);
      StagedSourced(s'.imp, k) && (Landed(s, k) || a.last ==> Landed(s', k))
  {
    hide Full, Served, StagedSourced, Sourced;
    FullSourced(s.imp, a.bridge, a.items, a.last, a.up, k);
    ServedAtMessage(s, a, k);
  }

  lemma DeltaLands(s: Sys, t: Timing, a: Step, k: Key)
    requires Enabled(s, t, a) && a.DeltaMessage? && StagedSourced(s.imp, k)
    ensures var s' := Next(s, t, a);
      StagedSourced(s'.imp, k) && (Landed(s, k) ==> Landed(s', k))
  {
    hide Delta, Served, StagedSourced, Sourced;
    DeltaSourced(s.imp, a.changes, a.up, k);
    ServedAtMessage(s, a, k);
  }

  /** Then nothing of k is left to an earlier broker or to a failed purge, once every job is done. */
  lemma StagedAtBridge(s: Sys, a: Step, k: Key)
    requires (a.BridgeConnects? || a.BridgeCloses?) && StagedSourced(s.imp, k)
    ensures StagedSourced(NextBridge(s, a).imp, k)
  {
    TogetherStays(s.imp, NextBridge(s, a).imp, k);
    hide StagedSourced;
  }

  lemma StagedAtBroker(s: Sys, t: Timing, a: Step, k: Key)
    requires (a.PurgeRequest? || a.BrokerRestart?) && StagedSourced(s.imp, k)
    ensures StagedSourced(NextBroker(s, t, a).imp, k)
  {
    if a.PurgeRequest? {
      hide StagedSourced, Purge;
      TogetherAtBroker(s, t, a, k);
      TogetherStays(s.imp, NextBroker(s, t, a).imp, k);
    } else {
      hide RefusedDeletions, Forgotten;
      assert Loaded(s.imp.file).staging == map[];
    }
  }

  lemma LandedLeavesNothing(s: Sys, k: Key)
    requires Landed(s, k) && Quiescent(s)
    ensures !Inherited(s, k) && k !in s.imp.pending
  {
  }
}
