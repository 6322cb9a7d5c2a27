// What a broker restart forgets: the keys its state file lacks. Two concrete runs (a
// file that missed a deletion, and a finished purge), and how long a forgotten key stays
// forgotten (src/cookie-bridge/importer.js _loadState, _saveState, purge).
module RestartRuns {
  import opened Cookies
  import opened ImporterState
  import opened BraveReplication
  import opened ReplicationInvariant
  import opened ReplicationProofs
  import opened ReplicationRuns
  import opened ReplicationTheorems
  import opened RemovedForGood
  import opened JustifiedWrites
  import opened StrandedRun
  import opened Policy

  /** The broker knows nothing of k: it neither masks, purges, deletes nor sets it. */
  ghost predicate Unknown(imp: Importer, k: Key) {
    && k !in imp.snapshot && k !in imp.managed && k !in imp.seen && k !in imp.pending && k !in imp.unflushed
    && (imp.running.Some? ==> k !in imp.running.value.todo && k !in imp.running.value.deletes)
    && (forall i :: 0 <= i < |imp.replaced| ==> k !in imp.replaced[i])
    && (imp.file.Some? ==> k !in imp.file.value.managed && k !in imp.file.value.pending)
  }

  ghost predicate InFile(imp: Importer, k: Key) {
    imp.file.Some? && (k in imp.file.value.managed || k in imp.file.value.pending)
  }

  /** A new broker knows exactly the keys of the file. */
  lemma RestartKnowsTheFile(s: Sys, t: Timing, k: Key)
    ensures Unknown(Next(s, t, BrokerRestart).imp, k) <==> !InFile(s.imp, k)
  {
    var f := s.imp.file;
    assert Loaded(f).file == f && Loaded(f).queue == [] && Loaded(f).running.None?;
  }

  /** The message is about k. */
  ghost predicate Mentions(a: Input, k: Key) {
    match a
    case FullInput(_, cookies, _, _) => exists w :: w in cookies && w.key == k
    case DeltaInput(changes, _, _) => exists ch :: ch in changes && ch.cookie.key == k
    case Other(_) => false
  }

  lemma NothingAsked(o: Owner, past: seq<Input>, k: Key)
    requires forall a :: a in past ==> !Mentions(a, k)
    ensures !MayGo(o, past, k) && !Put(o, past, k) && forall p :: !Asked(o, past, k, p)
  {
    forall a, p | a in past ensures !AsksSet(o, a, k, p) && !AsksRemoval(o, a, k) {
      assert !Mentions(a, k);
    }
  }

  /** A forgotten key stays forgotten until a message mentions it: whatever else happens, nothing about it reaches Brave. */
  lemma ForgottenUntilMentioned(o: Owner, s1: Sys, t: Timing, inputs: seq<Input>, s: Sys, k: Key)
    requires Unknown(s1.imp, k) && RunsTo(o, s1, t, inputs, s) && forall a :: a in inputs ==> !Mentions(a, k)
    ensures Unknown(s.imp, k)
  {
    hide AsksSet, AsksRemoval, RunsTo, Mentions;
    RunIsOk(o, [], s1, t, inputs, s, k);
    assert [] + inputs == inputs;
    NothingAsked(o, inputs, k);
    hide Asked, Put, MayGo;
  }

  // ── two runs ──

  const RESTART := [BrokerRestart, Launch({"k"}, 1, true, false), JobStart]

  /** The end of both runs: a new Brave is up, nothing is left to do, and it holds a value the broker knows nothing of. */
  ghost predicate Resurfaced(s: Sys) {
    Reached(s) && Quiescent(s) && Live(s.brave.memory, "k", s.now) && Unknown(s.imp, "k")
  }

  /** Brave holds OLD, on disk too; the broker's state file was never written. */
  lemma ValueStored() returns (s: Sys)
    ensures Reached(s) && Broker(s.imp, map["k" := OLD], 0, true) && s.imp.running.None? && s.imp.file.None?
    ensures BraveIs(s.brave, true, map["k" := OLD], map["k" := OLD])
  {
    FirstReached();
    s := Tells(First(), "k", OLD);
    s := Relaunches(s, "k", OLD, false);
    s := Starts(s, "k", OLD);
    s := Sends(s, "k", OLD);
    s := Finishes(s, map["k" := OLD]);
  }

  lemma NewBroker(s: Sys) returns (s': Sys)
    requires Reached(s) && s.imp.file.None? && s.brave.disk == map["k" := OLD]
    ensures s' == Next(s, TIMES, BrokerRestart) && Reached(s') && s'.imp == Loaded(None) && Unknown(s'.imp, "k")
    ensures BraveIs(s'.brave, false, s'.brave.memory, map["k" := OLD])
  {
    RestartKnowsTheFile(s, TIMES, "k");
    s' := Then(s, BrokerRestart);
  }

  lemma NewBrave(s: Sys) returns (s': Sys)
    requires Reached(s) && s.imp == Loaded(None) && BraveIs(s.brave, false, s.brave.memory, map["k" := OLD])
    ensures s' == Next(s, TIMES, RESTART[1]) && Enabled(s, TIMES, RESTART[1]) && Reached(s') && Broker(s'.imp, map[], 1, true) && s'.imp.running.None?
    ensures BraveIs(s'.brave, true, map["k" := OLD], map["k" := OLD]) && s'.now == s.now
  {
    assert Broker(s.imp, s.imp.snapshot, 0, false);
    LaunchQueues(s.imp, s.now, 1, false);
    hide Launched, Loaded;
    s' := Then(s, RESTART[1]);
    assert Restrict(s.brave.disk, {"k"}) == s.brave.disk;
  }

  lemma NothingToDo(s: Sys) returns (s': Sys)
    requires Reached(s) && Broker(s.imp, map[], 1, true) && s.imp.running.None?
    requires BraveIs(s.brave, true, map["k" := OLD], map["k" := OLD])
    ensures Enabled(s, TIMES, JobStart) && s' == Next(s, TIMES, JobStart) && Reached(s') && Quiescent(s')
    ensures s'.brave == s.brave && s'.now == s.now
  {
    assert LostTombs(s.imp) == map[];
    SkipIs(s.imp, s.now);
    hide Capture, LostTombs;
    s' := Then(s, JobStart);
  }

  lemma Unheard(o: Owner, s: Sys, s1: Sys, s2: Sys)
    requires Unknown(s.imp, "k") && Enabled(s, TIMES, RESTART[1]) && s1 == Next(s, TIMES, RESTART[1])
    requires Enabled(s1, TIMES, JobStart) && s2 == Next(s1, TIMES, JobStart)
    ensures Unknown(s2.imp, "k")
  {
    hide Unknown, Next, Enabled;
    var inputs := [Other(RESTART[1]), Other(JobStart)];
    assert inputs[1..] == [Other(JobStart)] && inputs[1..][1..] == [];
    assert RunsTo(o, s2, TIMES, [], s2) && RunsTo(o, s1, TIMES, inputs[1..], s2) && RunsTo(o, s, TIMES, inputs, s2);
    ForgottenUntilMentioned(o, s, TIMES, inputs, s2, "k");
  }

  /** The broker dies without a state file and starts again with Brave: the value on disk comes back, unknown to it. */
  lemma Restarts(s: Sys) returns (s': Sys)
    requires Reached(s) && s.imp.file.None? && s.brave.disk == map["k" := OLD]
    ensures Reaches(s, TIMES, RESTART, s') && Resurfaced(s')
  {
    hide Unknown, Broker, BraveIs, Next;
    var s1 := NewBroker(s);
    var s2 := NewBrave(s1);
    s' := NothingToDo(s2);
    Unheard(Owner(Lists({}, {}, {}, {}), {}), s1, s2, s');
    Follows(s, s1, s2, s');
    assert Live(s'.brave.memory, "k", s'.now) by { HasOld(s'); }
  }

  lemma HasOld(s: Sys)
    requires BraveIs(s.brave, true, map["k" := OLD], map["k" := OLD])
    ensures Live(s.brave.memory, "k", s.now)
  {
  }

  lemma Follows(s: Sys, s1: Sys, s2: Sys, s3: Sys)
    requires s1 == Next(s, TIMES, BrokerRestart)
    requires Enabled(s1, TIMES, RESTART[1]) && s2 == Next(s1, TIMES, RESTART[1])
    requires Enabled(s2, TIMES, JobStart) && s3 == Next(s2, TIMES, JobStart)
    ensures Reaches(s, TIMES, RESTART, s3)
  {
    hide Next;
    assert RESTART[1..] == [RESTART[1], JobStart] && RESTART[1..][1..] == [JobStart] && [JobStart][1..] == [];
    assert Reaches(s3, TIMES, [], s3) && Reaches(s2, TIMES, [JobStart], s3) && Reaches(s1, TIMES, RESTART[1..], s3);
  }

  const REMOVAL := DeltaMessage(map["k" := Change(true, OLD)], true)

  lemma RemovalHeld(s: Sys)
    requires Broker(s.imp, map["k" := OLD], 0, true) && BraveIs(s.brave, true, map["k" := OLD], map["k" := OLD]) && s.imp.file.None?
    ensures Enabled(s, TIMES, REMOVAL) && Removes(s, REMOVAL, "k")
    ensures var s1 := Next(s, TIMES, REMOVAL); s1.imp.file.None? && s1.brave == s.brave && Owed(s1.imp, "k")
  {
    RemovalIs(s.imp);
    hide Delta;
  }

  lemma RemovalIs(imp: Importer)
    ensures var imp' := Delta(imp, REMOVAL.changes, true); imp'.file == imp.file && Owed(imp', "k")
  {
    hide Delta;
    var ch := map["k" := Change(true, OLD)];
    BridgeKeepsFile(imp, REMOVAL);
    DeltaHandles(imp, ch, true, "k");
    assert "k" in Removed(ch) && "k" !in Added(ch);
  }

  /** The broker dies before the removal of k is in the file (or the write was refused): the removal is not carried over, and
      the removed value comes back. */
  lemma StaleFileRun() returns (s: Sys, s': Sys)
    ensures Reached(s) && Enabled(s, TIMES, REMOVAL) && Removes(s, REMOVAL, "k")
    ensures !Carried(Next(s, TIMES, REMOVAL).imp, "k")
    ensures Reaches(Next(s, TIMES, REMOVAL), TIMES, RESTART, s') && Resurfaced(s')
  {
    s := ValueStored();
    RemovalHeld(s);
    hide Resurfaced, Reaches, Next, Removes, Enabled, Broker;
    var s1 := Then(s, REMOVAL);
    s' := Restarts(s1);
  }

  // ── a finished purge ──

  /** k is stored, and the broker is in this stretch of a purge. */
  ghost predicate Purging(s: Sys) {
    Reached(s) && "k" in s.imp.managed && BraveIs(s.brave, true, map["k" := OLD], map["k" := OLD])
  }

  ghost predicate PurgeQueued(s: Sys) {
    && Reached(s) && BraveIs(s.brave, true, map["k" := OLD], map["k" := OLD]) && s.imp.running.None?
    && |s.imp.queue| == 1 && s.imp.queue[0].PurgeJob?
  }

  ghost predicate PurgeUnderWay(s: Sys, conn: Option<nat>) {
    && Reached(s) && BraveIs(s.brave, true, map["k" := OLD], map["k" := OLD])
    && s.imp.running.Some? && s.imp.running.value.job.PurgeJob? && s.imp.running.value.conn == conn
  }

  lemma PurgeBegins(s: Sys) returns (s': Sys)
    requires Purging(s) && s.imp.queue == [] && s.imp.running.None? && s.imp.bridge.None?
    ensures PurgeQueued(s')
  {
    hide PurgeSet;
    s' := Then(s, PurgeRequest);
  }

  lemma PurgeStarts(s: Sys) returns (s': Sys)
    requires PurgeQueued(s)
    ensures PurgeUnderWay(s', None)
  {
    hide Capture, Reached;
    PurgeCaptured(s.imp, s.now);
    s' := Then(s, JobStart);
  }

  lemma PurgeCaptured(imp: Importer, now: nat)
    requires imp.queue != [] && imp.queue[0].PurgeJob? && imp.running.None?
    ensures var r := Capture(imp, now).running; r.Some? && r.value.job == imp.queue[0] && r.value.conn.None?
  {
    hide TombParams;
  }

  lemma PurgeConnects(s: Sys) returns (s': Sys)
    requires PurgeUnderWay(s, None)
    ensures PurgeUnderWay(s', Some(s'.brave.launch))
  {
    s' := Then(s, JobConnect);
  }

  lemma PurgeSends(s: Sys) returns (s': Sys)
    requires PurgeUnderWay(s, Some(s.brave.launch))
    ensures Reached(s') && s'.imp.running.Some? && s'.imp.running.value.job.PurgeJob? && s'.imp.running.value.conn == Some(s'.brave.launch)
    ensures s'.imp.running.value.todo == map[] && |s'.brave.inbox| == 1 && s'.brave.alive && s'.brave.disk == map["k" := OLD]
  {
    var all := s.imp.running.value.todo.Keys;
    assert s.imp.running.value.todo - all == map[];
    s' := Then(s, JobSend(all));
  }

  lemma PurgeArrives(s: Sys) returns (s': Sys)
    requires Reached(s) && s.imp.running.Some? && s.imp.running.value.job.PurgeJob? && s.imp.running.value.conn == Some(s.brave.launch)
    requires s.imp.running.value.todo == map[] && |s.brave.inbox| == 1 && s.brave.alive && s.brave.disk == map["k" := OLD]
    ensures Reached(s') && Enabled(s', TIMES, JobFinish) && PurgeRunning(s') && s'.brave.disk == map["k" := OLD]
  {
    s' := Then(s, Process);
  }

  lemma PurgeDeletesFile(s: Sys)
    requires Enabled(s, TIMES, JobFinish) && PurgeRunning(s)
    ensures Next(s, TIMES, JobFinish).imp.file.None? && Next(s, TIMES, JobFinish).brave == s.brave
  {
    hide NowHeld, Applied;
  }

  lemma BridgeLeaves(s: Sys) returns (s': Sys)
    requires Purging(s) && s.imp.queue == [] && s.imp.running.None?
    ensures Purging(s') && s'.imp.queue == [] && s'.imp.running.None? && s'.imp.bridge.None?
  {
    s' := s;
    if s.imp.bridge.Some? { s' := Then(s, BridgeCloses(s.imp.bridge.value)); }
  }

  /** A purge's apply is through and its state file is deleted, Brave has not yet written the deletions to disk, and broker and
      Brave go down: the purged value comes back, neither masked nor purged nor deleted until a message mentions it. */
  lemma PurgeRestartRun() returns (s: Sys, s': Sys)
    ensures Reached(s) && Enabled(s, TIMES, JobFinish) && PurgeRunning(s)
    ensures Reaches(Next(s, TIMES, JobFinish), TIMES, RESTART, s') && Resurfaced(s')
  {
    s := ValueStored();
    hide Resurfaced, Reaches, Next, Enabled, BraveIs, PurgeQueued, PurgeUnderWay, PurgeRunning;
    s := BridgeLeaves(s);
    s := PurgeBegins(s);
    s := PurgeStarts(s);
    s := PurgeConnects(s);
    s := PurgeSends(s);
    s := PurgeArrives(s);
    PurgeDeletesFile(s);
    var s1 := Then(s, JobFinish);
    s' := Restarts(s1);
  }
}
