// A cookie whose last instruction was a removal stays out of Brave: the durability of
// deletions, stated over whole runs.
module RemovedForGood {
  import opened Cookies
  import opened ImporterState
  import opened BraveReplication
  import opened ReplicationInvariant
  import opened ReplicationProofs
  import opened ReplicationRuns
  import opened ReplicationTheorems

  /** The step says k is gone from Chrome: a removal, or a full sync that ends without it. */
  ghost predicate Removes(s: Sys, a: Step, k: Key) {
    || (a.DeltaMessage? && k in a.changes && a.changes[k].removed)
    || (a.FullBatch? && a.last && k in LeftOut(s.imp, a.bridge, a.items))
  }

  /** The broker still has to delete k, or to see the deletion reach the disk. */
  ghost predicate Owed(imp: Importer, k: Key) {
    k in imp.pending || k in imp.unflushed
  }

  /** The state file has k's removal: a broker that starts from it takes the removal over. */
  ghost predicate Carried(imp: Importer, k: Key) {
    if imp.file.None? then !Owed(imp, k)
    else k !in imp.file.value.managed && (Owed(imp, k) ==> k in imp.file.value.pending)
  }

  /** The step does not sync k again, Brave does not refuse it, and a restart finds its removal in the file. */
  ghost predicate Spares(s: Sys, a: Step, k: Key) {
    && (a.FullBatch? ==> k !in a.items)
    && (a.DeltaMessage? ==> k in a.changes ==> a.changes[k].removed)
    && a != JobRefused(k)
    && (a.BrokerRestart? ==> Carried(s.imp, k))
  }

  /** A run of steps that all spare k. */
  ghost predicate RunSpares(s: Sys, t: Timing, steps: seq<Step>, k: Key)
    decreases |steps|
  {
    steps == [] || (Enabled(s, t, steps[0]) && Spares(s, steps[0], k) && RunSpares(Next(s, t, steps[0]), t, steps[1..], k))
  }

  ghost predicate Gone(s: Sys, k: Key) {
    k !in s.imp.managed && k !in s.imp.snapshot && k !in s.past.stranded
  }

  lemma RemovalTakesEffect(s: Sys, t: Timing, a: Step, k: Key)
    requires Enabled(s, t, a) && Removes(s, a, k)
    ensures Gone(Next(s, t, a), k)
  {
    hide Full, Delta, LeftOut, NotOvertaken;
    if a.DeltaMessage? {
      DeltaHandles(s.imp, a.changes, a.up, k);
      assert k in Removed(a.changes) && k !in Added(a.changes);
    } else {
      FullHandles(s.imp, a.bridge, a.items, a.last, a.up, k);
      NotLeftOut(s.imp, a.bridge, a.items, k);
    }
  }

  lemma NotLeftOut(imp: Importer, id: nat, items: map<Key, Param>, k: Key)
    ensures k in LeftOut(imp, id, items) ==> k !in NotOvertaken(imp, id, items)
  {
  }

  lemma GoneAtBrave(s: Sys, t: Timing, a: Step, k: Key)
    requires Enabled(s, t, a) && BraveStep(a) && Gone(s, k)
    ensures Gone(NextBrave(s, t, a), k)
  {
    hide Save, Ready, Settle;
    match a
    case DownReport(up, ok) => SameAtDown(s.imp, s.now, t.flushMs, up, ok);
    case Launch(_, pid, up, ok) => SameAtLaunched(s.imp, pid, s.now, t.flushMs, up, ok);
    case LatePipe(pid, up, ok) => SameAtLaunched(s.imp, pid, s.now, t.flushMs, up, ok);
    case _ =>
  }

  ghost predicate SameSets(imp: Importer, imp': Importer) {
    imp'.managed == imp.managed && imp'.snapshot == imp.snapshot
  }

  lemma SameAtSave(imp: Importer, now: nat, flushMs: nat, up: bool, ok: bool)
    ensures SameSets(imp, Save(imp, now, flushMs, up, ok))
  {
    hide Content, Flushed;
  }

  lemma SameAtDown(imp: Importer, now: nat, flushMs: nat, up: bool, ok: bool)
    ensures SameSets(imp, Down(imp, now, flushMs, up, ok))
  {
    hide Save, Flushed;
    var s1 := Settle(imp, now, flushMs);
    SameAtSave(s1.(epoch := s1.epoch + 1), now, flushMs, up, ok);
  }

  lemma SameAtLaunched(imp: Importer, pid: nat, now: nat, flushMs: nat, up: bool, ok: bool)
    ensures SameSets(imp, Launched(imp, pid, now, flushMs, up, ok))
  {
    hide Down;
    SameAtDown(imp, now, flushMs, up, ok);
  }

  lemma GoneAtBridge(s: Sys, t: Timing, a: Step, k: Key)
    requires Enabled(s, t, a) && BridgeStep(a) && Gone(s, k) && Spares(s, a, k)
    ensures Gone(NextBridge(s, a), k)
  {
    match a
    case FullBatch(id, items, last, up) =>
      FullHandles(s.imp, id, items, last, up, k);
      assert k !in NotOvertaken(s.imp, id, items);
      hide Full, LeftOut, NotOvertaken;
    case DeltaMessage(ch, up) =>
      DeltaHandles(s.imp, ch, up, k);
      assert k !in Added(ch);
      hide Delta, Added, Removed;
    case _ =>
  }

  lemma GoneAtBroker(s: Sys, t: Timing, a: Step, k: Key)
    requires Enabled(s, t, a) && BrokerStep(a) && Gone(s, k) && Spares(s, a, k)
    ensures Gone(NextBroker(s, t, a), k)
  {
    hide Save, Content, PurgeSet;
    match a
    case SaveState(up, ok) => SameAtSave(s.imp, s.now, t.flushMs, up, ok);
    case BrokerRestart => RestartCarries(s, t, k);
    case _ =>
  }

  /** A restart keeps a removal exactly when the file has it; then the deletion is owed if it was. */
  lemma RestartCarries(s: Sys, t: Timing, k: Key)
    requires Gone(s, k)
    ensures Gone(NextBroker(s, t, BrokerRestart), k) <==> Carried(s.imp, k)
    ensures Carried(s.imp, k) && Owed(s.imp, k) ==> Owed(NextBroker(s, t, BrokerRestart).imp, k)
  {
    var f := if s.imp.file.Some? then s.imp.file.value else Saved(map[], map[]);
    assert Loaded(s.imp.file).managed == f.managed && Loaded(s.imp.file).snapshot == map[] && Loaded(s.imp.file).pending.Keys == f.pending.Keys;
    hide Loaded;
  }

  /** Nothing joins the managed cookies or the snapshot. */
  ghost predicate NoneJoins(imp: Importer, imp': Importer, k: Key) {
    (k in imp'.managed ==> k in imp.managed) && (k in imp'.snapshot ==> k in imp.snapshot)
  }

  lemma NoneJoinsAtStart(imp: Importer, now: nat, k: Key)
    requires imp.queue != [] && imp.running.None?
    ensures NoneJoins(imp, Capture(imp, now), k)
  {
    hide Capture, NothingToApply, StartedWith, NoneJoins;
    var imp' := Capture(imp, now);
    if imp.queue[0].ReadyJob? {
      SkipIs(imp, now);
      if NothingToApply(imp) {
        assert NoneJoins(imp, imp.(queue := imp.queue[1..]), k) by { PopJoinsNone(imp, k); }
      } else {
        CaptureReapplies(imp, now);
        StartJoinsNone(imp, imp', imp.snapshot - ExpiredKeys(imp, now), imp.pending + LostTombs(imp), ExpiredKeys(imp, now), k);
      }
    } else {
      var sets, deletes := CaptureStarts(imp, now, k);
      StartJoinsNone(imp, imp', sets, deletes, {}, k);
    }
  }

  lemma PopJoinsNone(imp: Importer, k: Key)
    requires imp.queue != []
    ensures NoneJoins(imp, imp.(queue := imp.queue[1..]), k)
  {
  }

  lemma StartJoinsNone(imp: Importer, imp': Importer, sets: map<Key, Param>, deletes: map<Key, Tomb>, expired: set<Key>, k: Key)
    requires StartedWith(imp, imp', sets, deletes, expired)
    ensures NoneJoins(imp, imp', k)
  {
  }

  lemma SameWhileRunning(imp: Importer, imp': Importer)
    requires RunOnly(imp, imp')
    ensures SameSets(imp, imp')
  {
  }

  lemma NoneJoinsAtFinish(imp: Importer, now: nat, k: Key)
    requires imp.running.Some?
    ensures NoneJoins(imp, Finish(imp, now), k)
  {
    var r := imp.running.value;
    FinishesWith(imp, now);
    FinishAt(imp, Finish(imp, now), now, Applied(imp, r), if r.job.PurgeJob? then {} else RefusedSets(r), k);
    hide Finish, FinishedWith, Applied;
  }

  lemma GoneAtJob(s: Sys, t: Timing, a: Step, k: Key)
    requires Enabled(s, t, a) && !BraveStep(a) && !BridgeStep(a) && !BrokerStep(a) && Gone(s, k) && Spares(s, a, k)
    ensures Gone(NextJob(s, t, a), k)
  {
    hide Capture, Finish, Restrict, Connect, Sent, Refused, Fail, RunOnly;
    match a
    case JobStart => NoneJoinsAtStart(s.imp, s.now, k);
    case JobConnect =>
      ConnectOnly(s.imp, s.brave.launch);
      SameWhileRunning(s.imp, Connect(s.imp, s.brave.launch));
    case JobSend(chunk) =>
      SentOnly(s.imp, chunk);
      SameWhileRunning(s.imp, Sent(s.imp, chunk));
    case JobRefused(x) =>
      RefusedOnly(s.imp, x);
      SameWhileRunning(s.imp, Refused(s.imp, x));
    case JobFinish => NoneJoinsAtFinish(s.imp, s.now, k);
    case JobFail =>
      FailedOnly(s.imp);
      SameWhileRunning(s.imp, Fail(s.imp));
  }

  lemma GoneStays(s: Sys, t: Timing, a: Step, k: Key)
    requires Enabled(s, t, a) && Gone(s, k) && Spares(s, a, k)
    ensures Gone(Next(s, t, a), k)
  {
    hide Gone, Enabled, NextBrave, NextBridge, NextBroker, NextJob, Spares;
    if BraveStep(a) {
      GoneAtBrave(s, t, a, k);
    } else if BridgeStep(a) {
      GoneAtBridge(s, t, a, k);
    } else if BrokerStep(a) {
      GoneAtBroker(s, t, a, k);
    } else {
      GoneAtJob(s, t, a, k);
    }
  }

  lemma {:induction false} GoneOverRun(s1: Sys, t: Timing, steps: seq<Step>, s: Sys, k: Key)
    requires Gone(s1, k) && Reaches(s1, t, steps, s) && RunSpares(s1, t, steps, k)
    ensures Gone(s, k)
    decreases |steps|
  {
    if steps != [] {
      hide Gone, Next, Spares;
      GoneStays(s1, t, steps[0], k);
      GoneOverRun(Next(s1, t, steps[0]), t, steps[1..], s, k);
    }
  }

  lemma {:induction false} ReachesOn(s0: Sys, t: Timing, steps: seq<Step>, s1: Sys, more: seq<Step>, s: Sys)
    requires Reaches(s0, t, steps, s1) && Reaches(s1, t, more, s)
    ensures Reaches(s0, t, steps + more, s)
    decreases |steps|
  {
    if steps == [] {
      assert steps + more == more;
    } else {
      hide Next;
      assert (steps + more)[1..] == steps[1..] + more;
      ReachesOn(Next(s0, t, steps[0]), t, steps[1..], s1, more, s);
    }
  }

  /** Whatever comes after the removal of k (more syncs, crashes, relaunches, purges, broker restarts from any state file
      that has the removal), as long as k is neither synced again nor refused: once the running Brave's re-apply is through and k's deletion is not pending,
      Brave's memory does not hold a value of k; and a value on disk has a tombstone that the next launch applies. */
  lemma DeletionSurvives(s0: Sys, t: Timing, steps: seq<Step>, s1: Sys, a: Step, later: seq<Step>, s: Sys, k: Key)
    requires Init(s0) && Timely(t) && Reaches(s0, t, steps, s1)
    requires Enabled(s1, t, a) && Removes(s1, a, k)
    requires Reaches(Next(s1, t, a), t, later, s) && RunSpares(Next(s1, t, a), t, later, k)
    ensures Gone(s, k)
    ensures InCharge(s) && !ReadyQueued(s.imp.queue) && !(Running(s) && s.imp.running.value.job.ReadyJob?) && k !in s.imp.pending ==>
      !Live(s.brave.memory, k, s.now) && (Live(s.brave.disk, k, s.now) ==> k in s.imp.unflushed)
  {
    hide Init, Timely, Next, Enabled, Removes, Spares, Gone;
    RemovalTakesEffect(s1, t, a, k);
    GoneOverRun(Next(s1, t, a), t, later, s, k);
    assert Reaches(s1, t, [a] + later, s) by { assert ([a] + later)[0] == a && ([a] + later)[1..] == later; }
    ReachesOn(s0, t, steps, s1, [a] + later, s);
    RemovedThere(s0, t, steps + ([a] + later), s, k);
  }

  lemma RemovedThere(s0: Sys, t: Timing, steps: seq<Step>, s: Sys, k: Key)
    requires Init(s0) && Timely(t) && Reaches(s0, t, steps, s) && Gone(s, k)
    ensures InCharge(s) && !ReadyQueued(s.imp.queue) && !(Running(s) && s.imp.running.value.job.ReadyJob?) && k !in s.imp.pending ==>
      !Live(s.brave.memory, k, s.now) && (Live(s.brave.disk, k, s.now) ==> k in s.imp.unflushed)
  {
    if InCharge(s) && !ReadyQueued(s.imp.queue) && !(Running(s) && s.imp.running.value.job.ReadyJob?) && k !in s.imp.pending {
      hide Reaches, Init, Timely;
      DeletionIsDurable(s0, t, steps, s, k);
    }
  }
}
