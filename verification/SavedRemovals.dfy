// A removal that is in the state file: when a save puts it there, how long it stays, and
// that it then holds over every restart (src/cookie-bridge/importer.js _saveState, purge).
module SavedRemovals {
  import opened Cookies
  import opened ImporterState
  import opened BraveReplication
  import opened ReplicationInvariant
  import opened ReplicationProofs
  import opened ReplicationRuns
  import opened ReplicationTheorems
  import opened RemovedForGood
  import opened StateFile
  import opened StrandedRun
  import opened PurgeRuns

  // ── a save ──

  lemma SavedOrNot(imp: Importer, now: nat, flushMs: nat, up: bool)
    ensures var imp' := Save(imp, now, flushMs, up, true);
      imp'.purged == imp.purged && (!imp.purged ==> !imp'.dirty) && (imp.purged ==> imp'.file == imp.file) &&
          (imp.file.Some? || (imp.dirty && !imp.purged) ==> imp'.file.Some?)
  {
    hide Content, Flushed;
  }

  /** A save the file system takes leaves the removal of k in the file if and only if there is a file then, or nothing of k is left
      to delete. There is one if the state was dirty, or was saved before, and no purge finished since the last bridge came. */
  lemma SaveCarries(s0: Sys, t: Timing, steps: seq<Step>, s: Sys, up: bool, k: Key)
    requires Init(s0) && Timely(t) && Reaches(s0, t, steps, s)
    requires Enabled(s, t, SaveState(up, true)) && Gone(s, k)
    ensures var imp' := Next(s, t, SaveState(up, true)).imp;
      && (Carried(imp', k) <==> imp'.file.Some? || !Owed(imp', k))
      && (s.imp.purged ==> imp'.file.None?) && (!s.imp.purged && (s.imp.dirty || s.imp.file.Some?) ==> imp'.file.Some?)
  {
    FileKnown(s0, t, steps, s, k);
    hide Init, Timely, Reaches, Save, FileInv;
    SavedOrNot(s.imp, s.now, t.flushMs, up);
    SaveKeepsInv(s.imp, s.now, t.flushMs, up, true, k);
    SameAtSave(s.imp, s.now, t.flushMs, up, true);
    CleanCarries(s.imp, k);
    CleanCarries(Save(s.imp, s.now, t.flushMs, up, true), k);
  }

  lemma CleanCarries(imp: Importer, k: Key)
    requires FileInv(imp, k) && k !in imp.managed
    ensures imp.purged ==> imp.file.None?
    ensures !imp.dirty && imp.file.Some? ==> Carried(imp, k)
  {
  }

  // ── how long it stays ──

  /** The step does not mention k, does not ask for a purge or finish one, and Brave does not refuse k in it. */
  ghost predicate Quiet(s: Sys, a: Step, k: Key) {
    && (a.FullBatch? ==> k !in a.items)
    && (a.DeltaMessage? ==> k !in a.changes)
    && a != JobRefused(k)
    && a != PurgeRequest
    && (a.JobFinish? ==> !PurgeRunning(s))
  }

  ghost predicate RunQuiet(s: Sys, t: Timing, steps: seq<Step>, k: Key)
    decreases |steps|
  {
    steps == [] || (Enabled(s, t, steps[0]) && Quiet(s, steps[0], k) && RunQuiet(Next(s, t, steps[0]), t, steps[1..], k))
  }

  /** Nothing of k is owed anew, and the file is as it was or just written. */
  ghost predicate NothingNew(imp: Importer, imp': Importer, k: Key) {
    (Owed(imp', k) ==> Owed(imp, k)) && (imp'.file == imp.file || (imp'.file.Some? && !imp'.dirty))
  }

  lemma NothingNewCarries(imp: Importer, imp': Importer, k: Key)
    requires Carried(imp, k) && NothingNew(imp, imp', k) && FileInv(imp', k) && k !in imp'.managed
    ensures Carried(imp', k)
  {
  }

  lemma NewAtSave(imp: Importer, now: nat, flushMs: nat, up: bool, ok: bool, k: Key)
    ensures NothingNew(imp, Save(imp, now, flushMs, up, ok), k)
  {
    hide Content, Flushed;
  }

  lemma NewAtDown(imp: Importer, now: nat, flushMs: nat, up: bool, ok: bool, k: Key)
    ensures NothingNew(imp, Down(imp, now, flushMs, up, ok), k)
  {
    hide Save, Flushed;
    var s1 := Settle(imp, now, flushMs);
    NewAtSave(s1.(epoch := s1.epoch + 1), now, flushMs, up, ok, k);
  }

  lemma NewAtLaunched(imp: Importer, pid: nat, now: nat, flushMs: nat, up: bool, ok: bool, k: Key)
    ensures NothingNew(imp, Launched(imp, pid, now, flushMs, up, ok), k)
  {
    hide Down, Ready;
    NewAtDown(imp, now, flushMs, up, ok, k);
    var s1 := Down(imp, now, flushMs, up, ok);
    ReadyIs(s1.(launch := s1.launch + 1), pid);
  }

  lemma NewAtBrave(s: Sys, t: Timing, a: Step, k: Key)
    requires Enabled(s, t, a) && BraveStep(a)
    ensures NothingNew(s.imp, NextBrave(s, t, a).imp, k)
  {
    hide Down, Launched, Started, Committed, MarkUncommitted, Dead;
    match a
    case DownReport(up, ok) => NewAtDown(s.imp, s.now, t.flushMs, up, ok, k);
    case Launch(_, pid, up, ok) => NewAtLaunched(s.imp, pid, s.now, t.flushMs, up, ok, k);
    case LatePipe(pid, up, ok) => NewAtLaunched(s.imp, pid, s.now, t.flushMs, up, ok, k);
    case _ =>
  }

  lemma NewAtBridge(s: Sys, a: Step, k: Key)
    requires BridgeStep(a) && Gone(s, k) && Quiet(s, a, k)
    ensures NothingNew(s.imp, NextBridge(s, a).imp, k)
  {
    BridgeKeepsFile(s.imp, a);
    match a
    case FullBatch(id, items, last, up) =>
      FullHandles(s.imp, id, items, last, up, k);
      NotTaken(s.imp, id, items, k);
      hide Full, LeftOut, NotOvertaken;
    case DeltaMessage(ch, up) =>
      DeltaHandles(s.imp, ch, up, k);
      assert k !in Added(ch) && k !in Removed(ch);
      hide Delta, Added, Removed;
    case _ =>
  }

  lemma NotTaken(imp: Importer, id: nat, items: map<Key, Param>, k: Key)
    requires k !in items && k !in imp.managed
    ensures k !in NotOvertaken(imp, id, items) && k !in LeftOut(imp, id, items)
  {
  }

  lemma NewAtStart(imp: Importer, now: nat, k: Key)
    requires imp.queue != [] && imp.running.None?
    ensures NothingNew(imp, Capture(imp, now), k)
  {
    hide Capture;
    var gone := StartIs(imp, now);
  }

  lemma NewAtFinish(imp: Importer, now: nat, k: Key)
    requires imp.running.Some? && !imp.running.value.job.PurgeJob?
    ensures NothingNew(imp, Finish(imp, now), k)
  {
    var r := imp.running.value;
    assert Finish(imp, now).file == imp.file;
    FinishesWith(imp, now);
    FinishAt(imp, Finish(imp, now), now, Applied(imp, r), RefusedSets(r), k);
    hide Finish, Applied, RefusedSets, FinishedWith;
  }

  lemma NewAtRun(imp: Importer, imp': Importer, k: Key)
    requires RunOnly(imp, imp')
    ensures NothingNew(imp, imp', k)
  {
  }

  lemma NewAtJob(s: Sys, t: Timing, a: Step, k: Key)
    requires Enabled(s, t, a) && !BraveStep(a) && !BridgeStep(a) && !BrokerStep(a) && Quiet(s, a, k)
    ensures NothingNew(s.imp, NextJob(s, t, a).imp, k)
  {
    hide Capture, Finish, Restrict, Connect, Sent, Refused, Fail, RunOnly, NothingNew;
    match a
    case JobStart => NewAtStart(s.imp, s.now, k);
    case JobConnect =>
      ConnectOnly(s.imp, s.brave.launch);
      NewAtRun(s.imp, Connect(s.imp, s.brave.launch), k);
    case JobSend(chunk) =>
      SentOnly(s.imp, chunk);
      NewAtRun(s.imp, Sent(s.imp, chunk), k);
    case JobRefused(x) =>
      RefusedOnly(s.imp, x);
      NewAtRun(s.imp, Refused(s.imp, x), k);
    case JobFinish => NewAtFinish(s.imp, s.now, k);
    case JobFail =>
      FailedOnly(s.imp);
      NewAtRun(s.imp, Fail(s.imp), k);
  }

  lemma CarriedAtRestart(imp: Importer, k: Key)
    requires Carried(imp, k)
    ensures Carried(Loaded(imp.file), k)
  {
  }

  lemma CarriedAtBroker(s: Sys, t: Timing, a: Step, k: Key)
    requires BrokerStep(a) && Quiet(s, a, k) && Carried(s.imp, k)
    requires FileInv(NextBroker(s, t, a).imp, k) && k !in NextBroker(s, t, a).imp.managed
    ensures Carried(NextBroker(s, t, a).imp, k)
  {
    hide Ready, Save, Loaded, FileInv, Carried, RefusedDeletions, Forgotten;
    match a
    case EnsureBrave(pid) =>
      ReadyIs(s.imp, pid);
      NothingNewCarries(s.imp, Ready(s.imp, pid), k);
    case SaveState(up, ok) =>
      NewAtSave(s.imp, s.now, t.flushMs, up, ok, k);
      NothingNewCarries(s.imp, Save(s.imp, s.now, t.flushMs, up, ok), k);
    case BrokerRestart => CarriedAtRestart(s.imp, k);
  }

  lemma CarriedStays(s: Sys, t: Timing, a: Step, k: Key)
    requires FileInv(s.imp, k) && PurgesAsked(s.imp) && Gone(s, k) && Carried(s.imp, k) && Enabled(s, t, a) && Quiet(s, a, k)
    ensures Spares(s, a, k) && Gone(Next(s, t, a), k) && Carried(Next(s, t, a).imp, k)
  {
    assert Spares(s, a, k);
    GoneStays(s, t, a, k);
    InvAtStep(s, t, a, k);
    var s' := Next(s, t, a);
    assert k !in s'.imp.managed;
    hide Gone, Carried, FileInv, PurgesAsked, NextBrave, NextBridge, NextBroker, NextJob, Enabled, Quiet, Spares, NothingNew;
    if BrokerStep(a) {
      CarriedAtBroker(s, t, a, k);
    } else {
      if BraveStep(a) { NewAtBrave(s, t, a, k); }
      else if BridgeStep(a) { NewAtBridge(s, a, k); }
      else { NewAtJob(s, t, a, k); }
      NothingNewCarries(s.imp, s'.imp, k);
    }
  }

  lemma {:induction false} QuietRun(s1: Sys, t: Timing, steps: seq<Step>, s: Sys, k: Key)
    requires Inv(s1, t) && Timely(t) && FileInv(s1.imp, k) && PurgesAsked(s1.imp) && Gone(s1, k) && Carried(s1.imp, k)
    requires Reaches(s1, t, steps, s) && RunQuiet(s1, t, steps, k)
    ensures RunSpares(s1, t, steps, k) && Carried(s.imp, k)
    decreases |steps|
  {
    if steps != [] {
      hide Inv, FileInv, PurgesAsked, Gone, Carried, Next, Spares, Quiet;
      InvKept(s1, t, steps[0]);
      AskedKept(s1, t, steps[0]);
      InvAtStep(s1, t, steps[0], k);
      CarriedStays(s1, t, steps[0], k);
      QuietRun(Next(s1, t, steps[0]), t, steps[1..], s, k);
    }
  }

  lemma {:induction false} SparesOn(s0: Sys, t: Timing, steps: seq<Step>, s1: Sys, more: seq<Step>, k: Key)
    requires Reaches(s0, t, steps, s1) && RunSpares(s0, t, steps, k) && RunSpares(s1, t, more, k)
    ensures RunSpares(s0, t, steps + more, k)
    decreases |steps|
  {
    if steps == [] {
      assert steps + more == more;
    } else {
      hide Next, Spares;
      assert (steps + more)[1..] == steps[1..] + more;
      SparesOn(Next(s0, t, steps[0]), t, steps[1..], s1, more, k);
    }
  }

  /** What a save and a quiet run after it do to a removed key. */
  lemma SavedStays(s0: Sys, t: Timing, steps: seq<Step>, s1: Sys, up: bool, more: seq<Step>, s: Sys, k: Key)
    requires Init(s0) && Timely(t) && Reaches(s0, t, steps, s1) && Gone(s1, k)
    requires Enabled(s1, t, SaveState(up, true)) && !s1.imp.purged && (s1.imp.dirty || s1.imp.file.Some?)
    requires var saved := Next(s1, t, SaveState(up, true)); Reaches(saved, t, more, s) && RunQuiet(saved, t, more, k)
    ensures RunSpares(s1, t, [SaveState(up, true)] + more, k) && Reaches(s1, t, [SaveState(up, true)] + more, s)
    ensures Carried(s.imp, k)
  {
    hide Gone, Carried, FileInv, PurgesAsked, NextBroker, RunQuiet, Enabled;
    var save := SaveState(up, true);
    var saved := Next(s1, t, save);
    SaveCarries(s0, t, steps, s1, up, k);
    assert Spares(s1, save, k);
    hide Spares;
    GoneStays(s1, t, save, k);
    assert ([save] + more)[0] == save && ([save] + more)[1..] == more;
    assert Reaches(saved, t, [], saved) && [save][1..] == [];
    ReachesOn(s0, t, steps, s1, [save], saved);
    RunKnown(s0, t, steps + [save], saved, k);
    QuietRun(saved, t, more, s, k);
  }

  lemma RunKnown(s0: Sys, t: Timing, steps: seq<Step>, s: Sys, k: Key)
    requires Init(s0) && Timely(t) && Reaches(s0, t, steps, s)
    ensures Inv(s, t) && FileInv(s.imp, k) && PurgesAsked(s.imp)
  {
    InitHolds(s0, t);
    RunHolds(s0, t, steps, s);
    assert FileInv(s0.imp, k) && PurgesAsked(s0.imp);
    hide Inv, Init, FileInv, PurgesAsked;
    FileOverRun(s0, t, steps, s, k);
  }

  /** A removal that a save has put into the file holds over every restart: as long as no message mentions k again, no purge runs
      and Brave does not refuse k, the file keeps having the removal, and k stays out of Brave as DeletionSurvives says. */
  lemma SavedRemovalHolds(s0: Sys, t: Timing, steps: seq<Step>, s1: Sys, a: Step, later: seq<Step>, s2: Sys, up: bool,
      more: seq<Step>, s: Sys, k: Key)
    requires Init(s0) && Timely(t) && Reaches(s0, t, steps, s1)
    requires Enabled(s1, t, a) && Removes(s1, a, k)
    requires Reaches(Next(s1, t, a), t, later, s2) && RunSpares(Next(s1, t, a), t, later, k)
    requires Enabled(s2, t, SaveState(up, true)) && !s2.imp.purged && (s2.imp.dirty || s2.imp.file.Some?)
    requires var saved := Next(s2, t, SaveState(up, true)); Reaches(saved, t, more, s) && RunQuiet(saved, t, more, k)
    ensures Carried(s.imp, k) && Gone(s, k)
    ensures InCharge(s) && !ReadyQueued(s.imp.queue) && !(Running(s) && s.imp.running.value.job.ReadyJob?) && k !in s.imp.pending ==>
      !Live(s.brave.memory, k, s.now) && (Live(s.brave.disk, k, s.now) ==> k in s.imp.unflushed)
  {
    hide Init, Timely, Next, Enabled, Removes, Gone, Carried, RunQuiet, InCharge, ReadyQueued;
    var s1' := Next(s1, t, a);
    RemovalTakesEffect(s1, t, a, k);
    GoneOverRun(s1', t, later, s2, k);
    var first := steps + ([a] + later);
    assert ([a] + later)[0] == a && ([a] + later)[1..] == later;
    ReachesOn(s0, t, steps, s1, [a] + later, s2);
    SavedStays(s0, t, first, s2, up, more, s, k);
    var rest := [SaveState(up, true)] + more;
    SparesOn(s1', t, later, s2, rest, k);
    ReachesOn(s1', t, later, s2, rest, s);
    DeletionSurvives(s0, t, steps, s1, a, later + rest, s, k);
  }

  // ── clean, but without a file ──

  /** There is nothing left to save, and yet no file: a new broker would know nothing of K, which is still to be deleted. */
  ghost predicate CleanWithout(s: Sys) {
    && !s.imp.dirty && !s.imp.purged && s.imp.file.None? && Owed(s.imp, K)
  }

  lemma PurgeLeaves(s: Sys)
    requires Enabled(s, TIMES, JobFinish) && PurgeRunning(s) && StillOwed(s, K)
    ensures var imp' := Next(s, TIMES, JobFinish).imp; !imp'.dirty && imp'.file.None? && Owed(imp', K)
  {
    FinishesWith(s.imp, s.now);
    FinishAt(s.imp, Finish(s.imp, s.now), s.now, Applied(s.imp, s.imp.running.value), {}, K);
    PurgeCleans(s.imp, s.now);
    hide Finish, Applied, FinishedWith;
  }

  lemma PurgeCleans(imp: Importer, now: nat)
    requires imp.running.Some? && imp.running.value.job.PurgeJob?
    ensures !Finish(imp, now).dirty && Finish(imp, now).file.None?
  {
    hide Applied, NowHeld;
  }

  lemma BridgeComes(s: Sys) returns (s': Sys)
    requires Reached(s) && !s.imp.dirty && s.imp.file.None? && Owed(s.imp, K)
    ensures Reached(s') && CleanWithout(s')
  {
    hide Reached;
    s' := s;
    if s'.imp.bridge.Some? { s' := Then(s', BridgeCloses(s'.imp.bridge.value)); }
    s' := Then(s', BridgeConnects(1));
  }

  /** After a finished purge and the next bridge's arrival nothing is dirty and saving is on again, but there is no file: the deletion
      that the purge left owed gets into one only once something makes the state dirty again. */
  lemma CleanWithoutFileRun() returns (s: Sys)
    ensures Reached(s) && CleanWithout(s) && !Carried(s.imp, K)
  {
    hide Reached, StillOwed, Owed, Next;
    s := PurgeMissesRun();
    PurgeLeaves(s);
    s := Then(s, JobFinish);
    s := BridgeComes(s);
    NothingSaved(s);
  }

  lemma NothingSaved(s: Sys)
    requires CleanWithout(s)
    ensures !Carried(s.imp, K)
  {
  }
}
