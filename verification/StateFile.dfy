// What the state file holds, on every run: whenever nothing is left to save it has exactly
// what the broker knows, so a removal that was saved is carried over every restart until the
// key is synced again (src/cookie-bridge/importer.js _saveState, _loadState).
module StateFile {
  import opened Cookies
  import opened ImporterState
  import opened BraveReplication
  import opened ReplicationInvariant
  import opened ReplicationProofs
  import opened ReplicationRuns
  import opened ReplicationTheorems
  import opened RemovedForGood

  /** What a broker that starts from the state file reads. */
  ghost function OnFile(imp: Importer): Saved {
    if imp.file.Some? then imp.file.value else Saved(map[], map[])
  }

  /** What a save writes as k's deletion. */
  ghost function DeletionOf(imp: Importer, k: Key): Param
    requires Owed(imp, k)
  {
    IdentityOf(if k in imp.pending then imp.pending[k].param else imp.unflushed[k].tomb.param)
  }

  /** The file has of k what a save would write. */
  ghost predicate UpToDate(imp: Importer, k: Key) {
    var f := OnFile(imp);
    && (k in f.managed <==> k in imp.managed) && (k in f.managed ==> f.managed[k] == imp.managed[k])
    && (k in f.pending <==> Owed(imp, k)) && (k in f.pending ==> f.pending[k] == DeletionOf(imp, k))
  }

  ghost predicate FileInv(imp: Importer, k: Key) {
    && (imp.purged ==> imp.file.None?)
    && (!imp.dirty && (imp.file.Some? || imp.replaced == []) ==> UpToDate(imp, k))
    && (k in OnFile(imp).pending ==> IdentityOf(OnFile(imp).pending[k]) == OnFile(imp).pending[k])
  }

  /** A purge's job is there only if a purge was asked for. */
  ghost predicate PurgesAsked(imp: Importer) {
    imp.replaced == [] ==>
      (forall j :: j in imp.queue ==> !j.PurgeJob?) && (imp.running.Some? ==> !imp.running.value.job.PurgeJob?)
  }

  // ── steps that do not write the file ──

  /** The file is as it was, and so is all it could have of k unless the state is dirty now. */
  ghost predicate Idle(imp: Importer, imp': Importer, k: Key) {
    && imp'.file == imp.file && (imp'.purged ==> imp.purged) && (imp'.replaced == [] ==> imp.replaced == [])
    && (!imp'.dirty ==>
          && !imp.dirty
          && (k in imp'.managed <==> k in imp.managed) && (k in imp.managed ==> imp'.managed[k] == imp.managed[k])
          && (Owed(imp', k) <==> Owed(imp, k)) && (Owed(imp, k) ==> DeletionOf(imp', k) == DeletionOf(imp, k)))
  }

  lemma IdleKeeps(imp: Importer, imp': Importer, k: Key)
    requires FileInv(imp, k) && Idle(imp, imp', k)
    ensures FileInv(imp', k)
  {
  }

  lemma IdleChain(imp: Importer, imp': Importer, imp'': Importer, k: Key)
    requires Idle(imp, imp', k) && Idle(imp', imp'', k)
    ensures Idle(imp, imp'', k)
  {
  }

  lemma SyncIdle(imp: Importer, m: map<Key, Param>, k: Key)
    ensures Idle(imp, SetSynced(imp, m), k)
  {
  }

  lemma ForgetIdle(imp: Importer, ks: set<Key>, given: map<Key, Param>, k: Key)
    requires forall x :: x in ks ==> x in imp.managed || x in imp.snapshot || x in given
    ensures Idle(imp, Forget(imp, ks, given), k)
  {
  }

  /** Only fields the file does not have differ. */
  ghost predicate Unsaved(imp: Importer, imp': Importer) {
    && imp'.managed == imp.managed && imp'.pending == imp.pending && imp'.unflushed == imp.unflushed
    && imp'.dirty == imp.dirty && imp'.file == imp.file && (imp'.purged ==> imp.purged) && imp'.replaced == imp.replaced
  }

  lemma UnsavedIdle(imp: Importer, imp': Importer, k: Key)
    requires Unsaved(imp, imp')
    ensures Idle(imp, imp', k)
  {
  }

  /** A batch before its full sync's end: synced, and staged for the end. */
  ghost function Batched(imp: Importer, id: nat, items: map<Key, Param>, last: bool): (imp': Importer)
    ensures imp'.managed == SetSynced(imp, NotOvertaken(imp, id, items)).managed
  {
    var sets := NotOvertaken(imp, id, items);
    var s1 := SetSynced(imp, sets);
    if last then s1.(staging := s1.staging - {id})
    else s1.(staging := s1.staging[id := Staging(StagingOf(imp, id).keys + sets.Keys, StagingOf(imp, id).overtaken)])
  }

  lemma BatchedIdle(imp: Importer, id: nat, items: map<Key, Param>, last: bool, k: Key)
    ensures Idle(imp, Batched(imp, id, items, last), k)
  {
    hide SetSynced, NotOvertaken, Idle, StagingOf;
    var s1 := SetSynced(imp, NotOvertaken(imp, id, items));
    SyncIdle(imp, NotOvertaken(imp, id, items), k);
    UnsavedIdle(s1, Batched(imp, id, items, last), k);
    IdleChain(imp, s1, Batched(imp, id, items, last), k);
  }

  lemma LeftOutManaged(imp: Importer, id: nat, items: map<Key, Param>, last: bool)
    ensures LeftOut(imp, id, items) <= Batched(imp, id, items, last).managed.Keys
  {
    hide Batched, SetSynced, NotOvertaken, StagingOf;
  }

  lemma FullIdle(imp: Importer, id: nat, items: map<Key, Param>, last: bool, up: bool, k: Key)
    ensures Idle(imp, Full(imp, id, items, last, up), k)
  {
    hide SetSynced, LeftOut, NotOvertaken, Idle, Forget, StagingOf, SyncDirties;
    BatchedIdle(imp, id, items, last, k);
    LeftOutManaged(imp, id, items, last);
    var s0 := Batched(imp, id, items, last);
    var s1 := if last then Forget(s0, LeftOut(imp, id, items), map[]) else s0;
    if last {
      ForgetIdle(s0, LeftOut(imp, id, items), map[], k);
      IdleChain(imp, s0, s1, k);
    }
    var keys := NotOvertaken(imp, id, items).Keys;
    assert Full(imp, id, items, last, up) == ApplyNow(s1, keys, up);
    hide Full;
    AppliedIdle(imp, s1, keys, up, k);
  }

  lemma AppliedIdle(imp: Importer, s1: Importer, keys: set<Key>, up: bool, k: Key)
    requires Idle(imp, s1, k)
    ensures Idle(imp, ApplyNow(s1, keys, up), k)
  {
    hide Idle;
    UnsavedIdle(s1, ApplyNow(s1, keys, up), k);
    IdleChain(imp, s1, ApplyNow(s1, keys, up), k);
  }

  ghost function Touched(imp: Importer, ch: map<Key, Change>): Importer {
    imp.(staging := MapOf(imp.staging.Keys, id requires id in imp.staging => Touch(imp.staging[id], ch)))
  }

  lemma TouchedIdle(imp: Importer, ch: map<Key, Change>, k: Key)
    ensures Idle(imp, Touched(imp, ch), k)
  {
    hide Idle, Touch;
    UnsavedIdle(imp, Touched(imp, ch), k);
  }

  lemma DeltaIs(imp: Importer, ch: map<Key, Change>, up: bool)
    ensures Delta(imp, ch, up) ==
            ApplyNow(Forget(SetSynced(Touched(imp, ch), Added(ch)), Removed(ch).Keys, Removed(ch)), Added(ch).Keys, up)
  {
    hide Touch, Added, Removed, SetSynced, Forget, ApplyNow;
  }

  lemma DeltaIdle(imp: Importer, ch: map<Key, Change>, up: bool, k: Key)
    ensures Idle(imp, Delta(imp, ch, up), k)
  {
    hide Idle, Touched, Added, Removed, SetSynced, Forget, ApplyNow, Delta;
    DeltaIs(imp, ch, up);
    var s1 := Touched(imp, ch);
    TouchedIdle(imp, ch, k);
    SyncIdle(s1, Added(ch), k);
    var s2 := SetSynced(s1, Added(ch));
    IdleChain(imp, s1, s2, k);
    ForgetIdle(s2, Removed(ch).Keys, Removed(ch), k);
    var s3 := Forget(s2, Removed(ch).Keys, Removed(ch));
    IdleChain(imp, s2, s3, k);
    AppliedIdle(imp, s3, Added(ch).Keys, up, k);
  }

  /** What starting a job leaves alone, and what it drops. */
  ghost predicate StartDrops(imp: Importer, imp': Importer, gone: set<Key>) {
    && imp'.file == imp.file && imp'.purged == imp.purged && imp'.replaced == imp.replaced
    && imp'.pending == imp.pending && imp'.unflushed == imp.unflushed
    && imp'.managed == imp.managed - gone && imp'.dirty == (imp.dirty || gone * imp.managed.Keys != {})
  }

  lemma ApplyStartsClean(imp: Importer, now: nat)
    requires imp.queue != [] && imp.running.None? && imp.queue[0].ApplyJob?
    ensures Capture(imp, now).dirty == imp.dirty
  {
    hide TombParams, Restrict;
  }

  lemma PurgeStartsClean(imp: Importer, now: nat)
    requires imp.queue != [] && imp.running.None? && imp.queue[0].PurgeJob?
    ensures Capture(imp, now).dirty == imp.dirty
  {
    hide TombParams, PurgeList;
  }

  lemma ReapplyDirties(imp: Importer, now: nat)
    requires imp.queue != [] && imp.running.None? && imp.queue[0].ReadyJob? && Capture(imp, now).running.Some?
    ensures Capture(imp, now).dirty == (imp.dirty || ExpiredKeys(imp, now) * imp.managed.Keys != {})
  {
    var gone := ExpiredKeys(imp, now);
    var s1 := imp.(snapshot := imp.snapshot - gone, managed := imp.managed - gone, dirty := imp.dirty ||
        gone * imp.managed.Keys != {});
    assert Capture(imp, now) == Start(s1, s1.snapshot, imp.pending + LostTombs(imp));
    hide Capture, LostTombs, ExpiredKeys, TombParams;
  }

  lemma StartedDrops(imp: Importer, imp': Importer, sets: map<Key, Param>, deletes: map<Key, Tomb>, gone: set<Key>)
    requires StartedWith(imp, imp', sets, deletes, gone) && imp'.dirty == (imp.dirty || gone * imp.managed.Keys != {})
    ensures StartDrops(imp, imp', gone)
  {
    hide TombParams;
  }

  lemma StartIs(imp: Importer, now: nat) returns (gone: set<Key>)
    requires imp.queue != [] && imp.running.None?
    ensures StartDrops(imp, Capture(imp, now), gone)
  {
    hide Capture, StartedWith, Captures, LostTombs, TombParams, ExpiredKeys, NothingToApply;
    gone := {};
    if !imp.queue[0].ReadyJob? {
      if imp.queue[0].ApplyJob? { ApplyStartsClean(imp, now); } else { PurgeStartsClean(imp, now); }
      var sets, deletes := CaptureStarts(imp, now, "");
      StartedDrops(imp, Capture(imp, now), sets, deletes, gone);
    } else {
      SkipIs(imp, now);
      if NothingToApply(imp) {
        assert imp.managed - {} == imp.managed;
      } else {
        gone := ExpiredKeys(imp, now);
        CaptureReapplies(imp, now);
        ReapplyDirties(imp, now);
        StartedDrops(imp, Capture(imp, now), imp.snapshot - gone, imp.pending + LostTombs(imp), gone);
      }
    }
  }

  lemma StartIdle(imp: Importer, now: nat, k: Key)
    requires imp.queue != [] && imp.running.None?
    ensures Idle(imp, Capture(imp, now), k)
  {
    hide Capture;
    var gone := StartIs(imp, now);
    assert k in imp.managed && k in gone ==> k in gone * imp.managed.Keys;
  }

  lemma FinishIdle(imp: Importer, now: nat, k: Key)
    requires imp.running.Some? && !imp.running.value.job.PurgeJob?
    ensures Idle(imp, Finish(imp, now), k)
  {
    var r := imp.running.value;
    var imp' := Finish(imp, now);
    assert imp'.dirty <==> imp.dirty || Applied(imp, r) != {} || RefusedSets(r) * imp.managed.Keys != {};
    assert imp'.file == imp.file && imp'.purged == imp.purged && imp'.replaced == imp.replaced;
    FinishesWith(imp, now);
    assert k in imp.managed && k !in imp'.managed ==> k in RefusedSets(r) * imp.managed.Keys;
    assert k in imp'.managed ==> imp'.managed[k] == imp.managed[k];
    hide Finish, NowHeld;
    FinishAt(imp, imp', now, Applied(imp, r), RefusedSets(r), k);
    hide Applied, RefusedSets, FinishedWith;
  }

  lemma RunOnlyIdle(imp: Importer, imp': Importer, k: Key)
    requires RunOnly(imp, imp')
    ensures Idle(imp, imp', k)
  {
    UnsavedIdle(imp, imp', k);
    hide Idle;
  }

  // ── steps that may write it ──

  lemma WriteIsCurrent(imp: Importer, k: Key)
    requires FileInv(imp, k) && !imp.purged
    ensures FileInv(imp.(dirty := false, file := Some(Content(imp))), k)
  {
  }

  lemma SettleIdle(imp: Importer, now: nat, flushMs: nat, k: Key)
    ensures Idle(imp, Settle(imp, now, flushMs), k)
  {
    hide Flushed;
  }

  lemma SaveKeepsInv(imp: Importer, now: nat, flushMs: nat, up: bool, ok: bool, k: Key)
    requires FileInv(imp, k)
    ensures FileInv(Save(imp, now, flushMs, up, ok), k)
  {
    var s1 := if imp.unflushed != map[] && up then Settle(imp, now, flushMs) else imp;
    hide FileInv, Settle, Content;
    if imp.unflushed != map[] && up {
      SettleIdle(imp, now, flushMs, k);
      IdleKeeps(imp, s1, k);
    }
    if s1.dirty && !s1.purged && ok { WriteIsCurrent(s1, k); }
  }

  lemma DownKeepsInv(imp: Importer, now: nat, flushMs: nat, up: bool, ok: bool, k: Key)
    requires FileInv(imp, k)
    ensures FileInv(Down(imp, now, flushMs, up, ok), k)
  {
    hide FileInv, Settle, Save, Idle;
    var s1 := Settle(imp, now, flushMs);
    SettleIdle(imp, now, flushMs, k);
    IdleKeeps(imp, s1, k);
    var s2 := s1.(epoch := s1.epoch + 1);
    UnsavedIdle(s1, s2, k);
    IdleKeeps(s1, s2, k);
    SaveKeepsInv(s2, now, flushMs, up, ok, k);
    var s3 := Save(s2, now, flushMs, up, ok);
    UnsavedIdle(s3, s3.(ready := None, readyPid := None), k);
    IdleKeeps(s3, s3.(ready := None, readyPid := None), k);
  }

  lemma ReadyIdle(imp: Importer, pid: nat, k: Key)
    ensures Idle(imp, Ready(imp, pid), k)
  {
    ReadyIs(imp, pid);
    UnsavedIdle(imp, Ready(imp, pid), k);
    hide Ready, Idle;
  }

  lemma LaunchedKeepsInv(imp: Importer, pid: nat, now: nat, flushMs: nat, up: bool, ok: bool, k: Key)
    requires FileInv(imp, k)
    ensures FileInv(Launched(imp, pid, now, flushMs, up, ok), k)
  {
    hide FileInv, Down, Ready, Idle;
    DownKeepsInv(imp, now, flushMs, up, ok, k);
    var s1 := Down(imp, now, flushMs, up, ok);
    var s2 := s1.(launch := s1.launch + 1);
    UnsavedIdle(s1, s2, k);
    IdleKeeps(s1, s2, k);
    ReadyIdle(s2, pid, k);
    IdleKeeps(s2, Ready(s2, pid), k);
  }

  lemma LoadedInv(imp: Importer, k: Key)
    requires FileInv(imp, k)
    ensures FileInv(Loaded(imp.file), k)
  {
  }

  lemma PurgeInv(imp: Importer, k: Key)
    requires FileInv(imp, k)
    ensures FileInv(Purge(imp), k)
  {
    hide PurgeSet;
  }

  lemma PurgedInv(imp: Importer, now: nat, k: Key)
    requires imp.running.Some? && imp.running.value.job.PurgeJob? && PurgesAsked(imp)
    ensures FileInv(Finish(imp, now), k)
  {
    hide NowHeld, Applied;
  }

  // ── every step ──

  lemma AtBrave(s: Sys, t: Timing, a: Step, k: Key)
    requires FileInv(s.imp, k) && Enabled(s, t, a) && BraveStep(a)
    ensures FileInv(NextBrave(s, t, a).imp, k)
  {
    hide FileInv, Down, Launched, Started, Committed, MarkUncommitted, Dead;
    match a
    case DownReport(up, ok) => DownKeepsInv(s.imp, s.now, t.flushMs, up, ok, k);
    case Launch(_, pid, up, ok) => LaunchedKeepsInv(s.imp, pid, s.now, t.flushMs, up, ok, k);
    case LatePipe(pid, up, ok) => LaunchedKeepsInv(s.imp, pid, s.now, t.flushMs, up, ok, k);
    case _ =>
  }

  lemma AtBridge(s: Sys, a: Step, k: Key)
    requires FileInv(s.imp, k) && BridgeStep(a)
    ensures FileInv(NextBridge(s, a).imp, k)
  {
    hide FileInv, Full, Delta, Idle;
    match a {
      case FullBatch(id, items, last, up) => FullIdle(s.imp, id, items, last, up, k);
      case DeltaMessage(ch, up) => DeltaIdle(s.imp, ch, up, k);
      case BridgeConnects(id) => UnsavedIdle(s.imp, Connected(s.imp, id), k);
      case BridgeCloses(id) => UnsavedIdle(s.imp, ConnClosed(s.imp, id), k);
    }
    IdleKeeps(s.imp, NextBridge(s, a).imp, k);
  }

  lemma AtBroker(s: Sys, t: Timing, a: Step, k: Key)
    requires FileInv(s.imp, k) && BrokerStep(a)
    ensures FileInv(NextBroker(s, t, a).imp, k)
  {
    hide FileInv, Ready, Save, Purge, Loaded, Idle;
    match a
    case EnsureBrave(pid) =>
      ReadyIdle(s.imp, pid, k);
      IdleKeeps(s.imp, Ready(s.imp, pid), k);
    case PurgeRequest => PurgeInv(s.imp, k);
    case SaveState(up, ok) => SaveKeepsInv(s.imp, s.now, t.flushMs, up, ok, k);
    case BrokerRestart => LoadedInv(s.imp, k);
  }

  lemma AtJob(s: Sys, t: Timing, a: Step, k: Key)
    requires FileInv(s.imp, k) && PurgesAsked(s.imp) && Enabled(s, t, a) && !BraveStep(a) && !BridgeStep(a) && !BrokerStep(a)
    ensures FileInv(NextJob(s, t, a).imp, k)
  {
    hide FileInv, Capture, Finish, Idle, RunOnly, PurgesAsked;
    if a.JobFinish? && PurgeRunning(s) {
      PurgedInv(s.imp, s.now, k);
    } else {
      JobIdle(s, t, a, k);
      IdleKeeps(s.imp, NextJob(s, t, a).imp, k);
    }
  }

  lemma JobIdle(s: Sys, t: Timing, a: Step, k: Key)
    requires Enabled(s, t, a) && !BraveStep(a) && !BridgeStep(a) && !BrokerStep(a) && !(a.JobFinish? && PurgeRunning(s))
    ensures Idle(s.imp, NextJob(s, t, a).imp, k)
  {
    hide Capture, Finish, Idle, RunOnly, Restrict;
    match a
    case JobStart => StartIdle(s.imp, s.now, k);
    case JobFinish => FinishIdle(s.imp, s.now, k);
    case JobConnect =>
      ConnectOnly(s.imp, s.brave.launch);
      RunOnlyIdle(s.imp, Connect(s.imp, s.brave.launch), k);
    case JobSend(chunk) =>
      SentOnly(s.imp, chunk);
      RunOnlyIdle(s.imp, Sent(s.imp, chunk), k);
    case JobRefused(x) =>
      RefusedOnly(s.imp, x);
      RunOnlyIdle(s.imp, Refused(s.imp, x), k);
    case JobFail =>
      FailedOnly(s.imp);
      RunOnlyIdle(s.imp, Fail(s.imp), k);
  }

  // ── every run ──

  lemma AskedStays(s: Sys, s': Sys)
    requires PurgesAsked(s.imp) && SamePurge(s, s')
    ensures PurgesAsked(s'.imp)
  {
  }

  lemma AskedAtBroker(s: Sys, t: Timing, a: Step)
    requires PurgesAsked(s.imp) && BrokerStep(a)
    ensures PurgesAsked(NextBroker(s, t, a).imp)
  {
    hide Ready, Save, PurgeSet, RefusedDeletions, Forgotten;
    match a
    case EnsureBrave(pid) => ReadyIs(s.imp, pid);
    case SaveState(up, ok) => var _ := SaveSettles(s.imp, s.now, t.flushMs, up, ok);
    case _ =>
  }

  lemma AskedAtRun(imp: Importer, imp': Importer)
    requires PurgesAsked(imp) && SameRun(imp, imp')
    ensures PurgesAsked(imp')
  {
  }

  lemma AskedAtJob(s: Sys, t: Timing, a: Step)
    requires PurgesAsked(s.imp) && Enabled(s, t, a) && !BraveStep(a) && !BridgeStep(a) && !BrokerStep(a)
    ensures PurgesAsked(NextJob(s, t, a).imp)
  {
    hide SameRun, Connect, Sent, Refused, Finish, Fail, Capture, Restrict;
    if a.JobStart? {
      CapturePops(s.imp, s.now);
      assert forall j :: j in s.imp.queue[1..] ==> j in s.imp.queue;
    } else {
      hide PurgesAsked;
      RunGoesOn(s.imp, s.brave.launch, if a.JobSend? then a.chunk else {}, if a.JobRefused? then a.key else "");
      RunFinishes(s.imp, s.now);
      RunFails(s.imp);
      AskedAtRun(s.imp, NextJob(s, t, a).imp);
    }
  }

  lemma AskedKept(s: Sys, t: Timing, a: Step)
    requires Inv(s, t) && PurgesAsked(s.imp) && Enabled(s, t, a)
    ensures PurgesAsked(Next(s, t, a).imp)
  {
    hide Inv, PurgesAsked, NextBrave, NextBridge, NextBroker, NextJob, Enabled;
    if BraveStep(a) {
      FreshAtBrave(s, t, a);
      AskedStays(s, Next(s, t, a));
    } else if BridgeStep(a) {
      FreshAtBridge(s, t, a);
      AskedStays(s, Next(s, t, a));
    } else if BrokerStep(a) {
      AskedAtBroker(s, t, a);
    } else {
      AskedAtJob(s, t, a);
    }
  }

  lemma InvAtStep(s: Sys, t: Timing, a: Step, k: Key)
    requires FileInv(s.imp, k) && PurgesAsked(s.imp) && Enabled(s, t, a)
    ensures FileInv(Next(s, t, a).imp, k)
  {
    hide FileInv, PurgesAsked, NextBrave, NextBridge, NextBroker, NextJob, Enabled;
    if BraveStep(a) {
      AtBrave(s, t, a, k);
    } else if BridgeStep(a) {
      AtBridge(s, a, k);
    } else if BrokerStep(a) {
      AtBroker(s, t, a, k);
    } else {
      AtJob(s, t, a, k);
    }
  }

  lemma {:induction false} FileOverRun(s0: Sys, t: Timing, steps: seq<Step>, s: Sys, k: Key)
    requires Inv(s0, t) && Timely(t) && FileInv(s0.imp, k) && PurgesAsked(s0.imp) && Reaches(s0, t, steps, s)
    ensures FileInv(s.imp, k) && PurgesAsked(s.imp)
    decreases |steps|
  {
    if steps != [] {
      hide Inv, FileInv, PurgesAsked, Next;
      InvKept(s0, t, steps[0]);
      AskedKept(s0, t, steps[0]);
      InvAtStep(s0, t, steps[0], k);
      FileOverRun(Next(s0, t, steps[0]), t, steps[1..], s, k);
    }
  }

  lemma FileKnown(s0: Sys, t: Timing, steps: seq<Step>, s: Sys, k: Key)
    requires Init(s0) && Timely(t) && Reaches(s0, t, steps, s)
    ensures FileInv(s.imp, k)
  {
    InitHolds(s0, t);
    assert FileInv(s0.imp, k) && PurgesAsked(s0.imp);
    hide Inv, Init, FileInv, PurgesAsked;
    FileOverRun(s0, t, steps, s, k);
  }

  /** Whenever nothing is left to save, what a new broker would read is what this one knows, if there is a file or this broker was
      never asked to purge. (After a finished purge there is no file, whatever is still to be deleted.) */
  lemma FileIsCurrent(s0: Sys, t: Timing, steps: seq<Step>, s: Sys)
    requires Init(s0) && Timely(t) && Reaches(s0, t, steps, s)
    requires !s.imp.dirty && (s.imp.file.Some? || s.imp.replaced == [])
    ensures OnFile(s.imp) == Content(s.imp)
  {
    forall k ensures UpToDate(s.imp, k) {
      FileKnown(s0, t, steps, s, k);
    }
    hide Init, Reaches, Timely, UpToDate, OnFile, Content;
    AllUpToDate(s.imp);
  }

  lemma AllUpToDate(imp: Importer)
    requires forall k :: UpToDate(imp, k)
    ensures OnFile(imp) == Content(imp)
  {
    hide UpToDate, OnFile, Content;
    var f, c := OnFile(imp), Content(imp);
    forall k ensures SameAt(f.managed, c.managed, k) && SameAt(f.pending, c.pending, k) {
      assert UpToDate(imp, k);
      UpToDateIs(imp, k);
    }
    AllSame(f.managed, c.managed);
    AllSame(f.pending, c.pending);
  }

  ghost predicate SameAt(m: map<Key, Param>, n: map<Key, Param>, k: Key) {
    (k in m <==> k in n) && (k in m ==> m[k] == n[k])
  }

  lemma AllSame(m: map<Key, Param>, n: map<Key, Param>)
    requires forall k :: SameAt(m, n, k)
    ensures m == n
  {
    forall k ensures (k in m <==> k in n) && (k in m ==> m[k] == n[k]) {
      assert SameAt(m, n, k);
    }
  }

  lemma UpToDateIs(imp: Importer, k: Key)
    requires UpToDate(imp, k)
    ensures SameAt(OnFile(imp).managed, Content(imp).managed, k) && SameAt(OnFile(imp).pending, Content(imp).pending, k)
  {
    hide OnFile;
  }
}
