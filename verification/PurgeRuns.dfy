// What a purge can leave: a deletion that left the purge's list before its job started,
// because an apply ahead of it sent it to a Brave that then died. When it is gone, and a
// run that shows it (src/cookie-bridge/importer.js purge, _apply).
module PurgeRuns {
  import opened Cookies
  import opened ImporterState
  import opened BraveReplication
  import opened ReplicationInvariant
  import opened ReplicationProofs
  import opened ReplicationRuns
  import opened ReplicationTheorems
  import opened RemovedForGood
  import opened StrandedRun

  /** Whatever a finished purge left is gone once the launch's re-apply is through: as long as k is neither synced again nor refused
      and a restart finds its removal in the file, Brave's memory has no value of k when no deletion of it is pending. */
  lemma PurgeSettles(s0: Sys, t: Timing, steps: seq<Step>, s1: Sys, later: seq<Step>, s: Sys, k: Key)
    requires Init(s0) && Timely(t) && Reaches(s0, t, steps, s1)
    requires Enabled(s1, t, JobFinish) && PurgeRunning(s1)
    requires k !in s1.imp.seen && k !in s1.past.orphans
    requires Reaches(s1, t, later, s) && RunSpares(s1, t, later, k)
    requires InCharge(s) && !ReadyQueued(s.imp.queue) && !(Running(s) && s.imp.running.value.job.ReadyJob?) && k !in s.imp.pending
    ensures !Live(s.brave.memory, k, s.now)
  {
    hide Init, Timely, Gone, RunSpares;
    NothingSynced(s0, t, steps, s1, k);
    GoneOverRun(s1, t, later, s, k);
    ReachesOn(s0, t, steps, s1, later, s);
    GoneIs(s, k);
    DeletionIsDurable(s0, t, steps + later, s, k);
  }

  lemma NothingSynced(s0: Sys, t: Timing, steps: seq<Step>, s: Sys, k: Key)
    requires Init(s0) && Timely(t) && Reaches(s0, t, steps, s) && k !in s.imp.seen && k !in s.past.orphans
    ensures Gone(s, k)
  {
    InitHolds(s0, t);
    RunHolds(s0, t, steps, s);
    assert KeyInv(s, k) && MapsAgree(s, k) && Traced(s, k);
    hide Inv, KeyInv;
  }

  lemma GoneIs(s: Sys, k: Key)
    requires Gone(s, k)
    ensures k !in s.imp.managed && k !in s.past.stranded
  {
  }

  // ── the run ──

  const K: Key := "k"
  const REMOVAL := DeltaMessage(map[K := Change(true, OLD)], true)

  /** Brave runs, its disk has the old value, and nothing of K was synced since. */
  ghost predicate Serving(s: Sys) {
    Reached(s) && s.brave.alive && s.brave.serving && s.brave.inbox == [] && K in s.brave.disk && s.brave.disk[K] == OLD &&
        s.past.orphans == {}
  }

  ghost predicate NotSet(imp: Importer) {
    K !in imp.snapshot && K !in imp.managed
  }

  /** The deletion of K is what the running apply carries, and still the one asked for. */
  ghost predicate Applying(imp: Importer, conn: Option<nat>) {
    && NotSet(imp) && imp.queue == [] && imp.running.Some?
    && var r := imp.running.value;
    && r.job.ApplyJob? && r.refused == {} && r.conn == conn && r.epoch == imp.epoch
    && K in r.deletes && K in imp.pending && imp.pending[K] == r.deletes[K]
  }

  lemma Removal(s: Sys) returns (s': Sys)
    requires Serving(s) && s.imp.queue == [] && s.imp.running.None?
    ensures Serving(s') && s'.imp.queue == [ApplyJob({})] && s'.imp.running.None? && NotSet(s'.imp) && K in s'.imp.pending
    ensures s'.brave == s.brave && s'.now == s.now && s'.imp.bridge == s.imp.bridge
  {
    hide Delta, Added, Removed, Reached;
    RemovalHandled(s.imp);
    assert LiveChanges(REMOVAL.changes, s.now);
    assert Next(s, TIMES, REMOVAL).past.orphans == s.past.orphans;
    s' := Then(s, REMOVAL);
  }

  lemma RemovalHandled(imp: Importer)
    requires imp.queue == []
    ensures var imp' := Delta(imp, REMOVAL.changes, true);
      && NotSet(imp') && K in imp'.pending && imp'.queue == [ApplyJob({})] && imp'.running == imp.running && imp'.bridge == imp.bridge
  {
    var ch := REMOVAL.changes;
    assert Removed(ch).Keys == {K} && Added(ch).Keys == {};
    DeltaHandles(imp, ch, true, K);
    DeltaOnly(imp, ch, true, K);
    assert Delta(imp, ch, true).bridge == imp.bridge;
    hide Delta, Added, Removed;
  }

  lemma ApplyReads(imp: Importer, now: nat)
    requires imp.queue == [ApplyJob({})] && imp.running.None? && NotSet(imp) && K in imp.pending
    ensures Applying(Capture(imp, now), None) && Capture(imp, now).bridge == imp.bridge
  {
    hide Capture;
    var sets, deletes := CaptureStarts(imp, now, K);
  }

  lemma ApplyStarts(s: Sys) returns (s': Sys)
    requires Serving(s) && s.imp.queue == [ApplyJob({})] && s.imp.running.None? && NotSet(s.imp) && K in s.imp.pending
    ensures Serving(s') && Applying(s'.imp, Some(s'.brave.launch)) && s'.now == s.now && s'.imp.bridge == s.imp.bridge
  {
    hide Capture, Reached;
    ApplyReads(s.imp, s.now);
    var s1 := Then(s, JobStart);
    s' := Joins(s1);
  }

  /** The running job gets its connection. */
  lemma Joins(s: Sys) returns (s': Sys)
    requires Serving(s) && s.imp.running.Some? && s.imp.running.value.conn.None?
    ensures Serving(s') && s' == s.(imp := Connect(s.imp, s.brave.launch))
  {
    hide Reached;
    s' := Then(s, JobConnect);
  }

  /** The deletion reaches Brave's memory, but not its disk. */
  lemma ApplySends(s: Sys) returns (s': Sys)
    requires Serving(s) && Applying(s.imp, Some(s.brave.launch))
    ensures Serving(s') && Applying(s'.imp, Some(s'.brave.launch)) && s'.imp.running.value.todo == map[] && s'.now == s.now
    ensures s'.imp.bridge == s.imp.bridge
  {
    s' := SendsAll(s);
  }

  /** The running job sends everything it has left, and Brave takes it. */
  lemma SendsAll(s: Sys) returns (s': Sys)
    requires Serving(s) && s.imp.running.Some? && s.imp.running.value.conn == Some(s.brave.launch)
    ensures Serving(s') && s'.now == s.now && s'.past == s.past.(overwritten := s'.past.overwritten)
    ensures var r := s.imp.running.value;
      s'.imp == s.imp.(running := Some(r.(todo := map[]))) && s'.brave.launch == s.brave.launch &&
      s'.brave.memory == s.brave.memory + Restrict(r.todo, r.todo.Keys)
  {
    var r := s.imp.running.value;
    var all := r.todo.Keys;
    assert r.todo - all == map[];
    var s1 := Then(s, JobSend(all));
    assert s1.brave.inbox == [Restrict(r.todo, all)];
    s' := Then(s1, Process);
  }

  lemma PurgeAsked(s: Sys) returns (s': Sys)
    requires Serving(s) && Applying(s.imp, Some(s.brave.launch)) && s.imp.running.value.todo == map[] && s.imp.bridge.None?
    ensures Serving(s') && s'.brave == s.brave && s'.now == s.now && s'.imp.running == s.imp.running && s'.imp.epoch == s.imp.epoch
    ensures NotSet(s'.imp) && s'.imp.seen == map[] && s'.imp.queue == [PurgeJob(|s'.imp.replaced|)]
    ensures K in s'.imp.pending && s'.imp.pending[K] == s.imp.pending[K]
  {
    s' := Then(s, PurgeRequest);
    hide PurgeSet;
  }

  /** The apply is through: the deletion leaves the purge's list. */
  lemma ApplyFinishes(s: Sys) returns (s': Sys)
    requires Serving(s) && s.imp.running.Some? && s.imp.running.value.todo == map[]
    requires var r := s.imp.running.value; r.job.ApplyJob? && r.refused == {} && r.conn == Some(s.brave.launch) && r.epoch == s.imp.epoch
    requires K in s.imp.running.value.deletes && K in s.imp.pending && s.imp.pending[K] == s.imp.running.value.deletes[K]
    requires NotSet(s.imp) && s.imp.seen == map[] && s.imp.queue == [PurgeJob(|s.imp.replaced|)]
    ensures Serving(s') && s'.brave == s.brave && s'.imp.running.None? && s'.imp.queue == s.imp.queue && Held1(s') && K !in s'.imp.pending
    ensures s'.imp.replaced == s.imp.replaced
  {
    var r := s.imp.running.value;
    FinishesWith(s.imp, s.now);
    FinishAt(s.imp, Finish(s.imp, s.now), s.now, Applied(s.imp, r), RefusedSets(r), K);
    hide Finish, Applied, FinishedWith;
    assert RefusedSets(r) == {};
    s' := Then(s, JobFinish);
  }

  /** K has a tombstone of the running Brave that is too young to be dropped, and nothing else. */
  ghost predicate Held1(s: Sys) {
    && NotSet(s.imp) && s.imp.seen == map[] && K in s.imp.unflushed
    && s.imp.unflushed[K].at == s.now && s.imp.unflushed[K].epoch == s.imp.epoch
  }

  /** The purge's job has started, and its list has no K. */
  ghost predicate Purging(imp: Importer, conn: Option<nat>) {
    && imp.running.Some?
    && var r := imp.running.value;
    && r.job == PurgeJob(|imp.replaced|) && r.conn == conn && K !in r.deletes && K !in r.todo
  }

  lemma PurgeStarts(s: Sys) returns (s': Sys)
    requires Serving(s) && s.imp.running.None? && s.imp.queue == [PurgeJob(|s.imp.replaced|)] && Held1(s) && K !in s.imp.pending
    ensures Serving(s') && s'.brave == s.brave && s'.imp.queue == [] && Held1(s') && Purging(s'.imp, None)
  {
    PurgeReads(s.imp, s.now);
    hide Capture;
    s' := Then(s, JobStart);
  }

  lemma PurgeReads(imp: Importer, now: nat)
    requires imp.queue == [PurgeJob(|imp.replaced|)] && imp.running.None? && K !in imp.pending
    ensures var imp' := Capture(imp, now);
      && Purging(imp', None) && imp'.queue == [] && imp'.snapshot == imp.snapshot && imp'.managed == imp.managed
      && imp'.seen == imp.seen && imp'.unflushed == imp.unflushed && imp'.epoch == imp.epoch
  {
    var sets, deletes := CaptureStarts(imp, now, K);
    hide Capture;
    assert imp.snapshot - {} == imp.snapshot && imp.managed - {} == imp.managed;
  }

  /** K's tombstone is of an earlier Brave. */
  ghost predicate Lost1(imp: Importer) {
    NotSet(imp) && imp.seen == map[] && K in imp.unflushed && imp.unflushed[K].epoch < imp.epoch
  }

  lemma DownLoses(imp: Importer, now: nat)
    requires NotSet(imp) && imp.seen == map[] && K in imp.unflushed
    requires forall x :: x in imp.unflushed ==> imp.unflushed[x].epoch <= imp.epoch
    requires imp.unflushed[K].epoch == imp.epoch ==> imp.unflushed[K].at == now
    ensures var imp' := Down(imp, now, TIMES.flushMs, false, false);
      Lost1(imp') && imp'.running == imp.running && imp'.queue == imp.queue && imp'.replaced == imp.replaced
  {
    hide Down;
    DownSettles(imp, now, TIMES.flushMs, false, false);
    assert K !in Flushed(imp, now, TIMES.flushMs);
    hide Flushed;
  }

  lemma BraveDies(s: Sys) returns (s': Sys)
    requires Serving(s) && Held1(s) && s.imp.queue == [] && Purging(s.imp, None)
    ensures Reached(s') && !s'.brave.alive && !s'.brave.serving && s'.brave.disk == s.brave.disk && s'.past.orphans == {}
    ensures Lost1(s'.imp) && s'.imp.queue == [] && Purging(s'.imp, None)
  {
    EpochsKnown(s);
    DownLoses(s.imp, s.now);
    hide Down;
    var s1 := Then(s, Die);
    s' := Then(s1, DownReport(false, false));
  }

  lemma EpochsKnown(s: Sys)
    requires Reached(s)
    ensures forall x :: x in s.imp.unflushed ==> s.imp.unflushed[x].epoch <= s.imp.epoch
  {
    FirstReached();
    var steps, l :| Seen(steps, s, l);
    InitHolds(First(), TIMES);
    StoreAgreement.StoreDies(First(), StoreAgreement.EMPTY, TIMES, steps, s, l, K);
    UnflushedEpochs(s, TIMES);
  }

  lemma Relaunch(s: Sys) returns (s': Sys)
    requires Reached(s) && !s.brave.alive && !s.brave.serving && K in s.brave.disk && s.brave.disk[K] == OLD && s.past.orphans == {}
    requires Lost1(s.imp) && s.imp.queue == [] && Purging(s.imp, None)
    ensures Serving(s') && Lost1(s'.imp) && Purging(s'.imp, Some(s'.brave.launch)) && K in s'.brave.memory && s'.brave.memory[K] == OLD
    ensures ReadyQueued(s'.imp.queue)
  {
    hide ReadyQueued;
    var s1 := ComesUp(s);
    s' := Joins(s1);
  }

  lemma ComesUp(s: Sys) returns (s': Sys)
    requires Reached(s) && !s.brave.alive && !s.brave.serving && K in s.brave.disk && s.brave.disk[K] == OLD && s.past.orphans == {}
    requires Lost1(s.imp) && s.imp.queue == [] && Purging(s.imp, None)
    ensures Serving(s') && Lost1(s'.imp) && Purging(s'.imp, None) && K in s'.brave.memory && s'.brave.memory[K] == OLD
    ensures ReadyQueued(s'.imp.queue)
  {
    hide Launched, ReadyQueued, Reached;
    EpochsKnown(s);
    LaunchLoses(s.imp, s.now);
    s' := Then(s, Launch({K}, 1, false, false));
  }

  lemma LaunchLoses(imp: Importer, now: nat)
    requires Lost1(imp) && imp.queue == [] && forall x :: x in imp.unflushed ==> imp.unflushed[x].epoch <= imp.epoch
    ensures var imp' := Launched(imp, 1, now, TIMES.flushMs, false, false);
      Lost1(imp') && imp'.running == imp.running && imp'.replaced == imp.replaced && ReadyQueued(imp'.queue)
  {
    DownLoses(imp, now);
    var down := Down(imp, now, TIMES.flushMs, false, false);
    hide Down;
    DownSettles(imp, now, TIMES.flushMs, false, false);
    ReadyIs(down.(launch := down.launch + 1), 1);
    assert ReadyJob(down.token) in [] + [ReadyJob(down.token)];
    hide Ready;
  }

  /** The purge finishes on a new Brave that has the old value: its deletion was taken by the apply ahead, for the Brave that died.
      Nothing but the launch's re-apply will delete it. */
  lemma PurgeMissesRun() returns (s: Sys)
    ensures Reached(s) && Enabled(s, TIMES, JobFinish) && Attached(s) && PurgeRunning(s)
    ensures s.imp.running.value.job.id == |s.imp.replaced|
    ensures Live(Next(s, TIMES, JobFinish).brave.memory, K, s.now) && K !in s.imp.seen && K !in s.past.orphans
    ensures StillOwed(s, K) && ReadyQueued(s.imp.queue)
  {
    s := Stored(K, OLD);
    hide Broker, Reached, Applying, Purging, Held1, Lost1;
    s := BridgeGone(s);
    s := Removal(s);
    s := ApplyStarts(s);
    s := ApplySends(s);
    s := MissesFrom(s);
  }

  lemma BridgeGone(s: Sys) returns (s': Sys)
    requires Serving(s) && s.imp.queue == [] && s.imp.running.None?
    ensures Serving(s') && s'.imp.queue == [] && s'.imp.running.None? && s'.imp.bridge.None?
  {
    s' := s;
    if s.imp.bridge.Some? { s' := Then(s, BridgeCloses(s.imp.bridge.value)); }
  }

  lemma MissesFrom(s0: Sys) returns (s: Sys)
    requires Serving(s0) && Applying(s0.imp, Some(s0.brave.launch)) && s0.imp.running.value.todo == map[] && s0.imp.bridge.None?
    ensures Reached(s) && Enabled(s, TIMES, JobFinish) && Attached(s) && PurgeRunning(s)
    ensures s.imp.running.value.job.id == |s.imp.replaced|
    ensures Live(Next(s, TIMES, JobFinish).brave.memory, K, s.now) && K !in s.imp.seen && K !in s.past.orphans
    ensures StillOwed(s, K) && ReadyQueued(s.imp.queue)
  {
    hide ReadyQueued, Reached;
    s := PurgeAsked(s0);
    s := ApplyFinishes(s);
    s := PurgeStarts(s);
    s := BraveDies(s);
    s := Relaunch(s);
    s := SendsAll(s);
    hide Finish;
  }
}
