// A run on which a stranded key is not as the instructions ask, for every key and every
// two cookies of which the later one expires earlier: Chrome replaced the longer-lived one
// while Brave was down, its successor expired before the relaunch, and the relaunch's apply
// drops it without deleting the old one (src/cookie-bridge/importer.js braveReady).
module StrandedRun {
  import opened Cookies
  import opened ImporterState
  import opened BraveReplication
  import opened ReplicationInvariant
  import opened ReplicationProofs
  import opened ReplicationRuns
  import opened ReplicationTheorems
  import opened StoreAgreement

  lemma {:induction false} AccountsThen(s0: Sys, l0: Ledger, t: Timing, steps: seq<Step>, s: Sys, l: Ledger, a: Step)
    requires Accounts(s0, l0, t, steps, s, l) && Enabled(s, t, a)
    ensures Accounts(s0, l0, t, steps + [a], Next(s, t, a), NextLedger(s, t, a, l))
    decreases |steps|
  {
    hide Next, NextLedger, Enabled;
    if steps == [] {
      assert (steps + [a])[1..] == [];
      assert Accounts(Next(s, t, a), NextLedger(s, t, a, l), t, [], Next(s, t, a), NextLedger(s, t, a, l));
    } else {
      assert (steps + [a])[1..] == steps[1..] + [a];
      AccountsThen(Next(s0, t, steps[0]), NextLedger(s0, t, steps[0], l0), t, steps[1..], s, l, a);
    }
  }

  const TIMES := Timing(30000, 10000, 60000)

  function Sample(value: string, expires: Option<real>): Param {
    Param("sid", value, "https://example.com/", None, "/", true, true, Unset, expires, None)
  }

  const OLD := Sample("old", None)
  const NEW := Sample("new", Some(10.0))

  ghost function First(): Sys {
    Sys(Loaded(None), Brave(0, false, false, -1, map[], map[], map[], 0, []), 1000, History(map[], {}, {}, {}, false))
  }

  /** A run from First ends in s, and l is what it has seen: Brave refused nothing, and what a restart forgot is an orphan. */
  ghost predicate Seen(steps: seq<Step>, s: Sys, l: Ledger) {
    Accounts(First(), EMPTY, TIMES, steps, s, l) && l.refused == {} && l.forgotten <= s.past.orphans
  }

  ghost predicate Reached(s: Sys) {
    exists steps, l :: Seen(steps, s, l)
  }

  lemma FirstReached()
    ensures Reached(First()) && Init(First()) && Timely(TIMES)
  {
    assert Seen([], First(), EMPTY);
  }

  /** Brave refuses nothing at this step. */
  ghost predicate NoneRefused(s: Sys, a: Step) {
    && !a.JobRefused?
    && (a.JobFinish? && s.imp.running.Some? && !s.imp.running.value.job.PurgeJob? ==> RefusedSets(s.imp.running.value) == {})
  }

  lemma LedgerStaysClean(s: Sys, a: Step, l: Ledger)
    requires Enabled(s, TIMES, a) && NoneRefused(s, a) && l.refused == {} && l.forgotten <= s.past.orphans
    ensures var l' := NextLedger(s, TIMES, a, l);
      l'.refused == {} && l'.forgotten <= Next(s, TIMES, a).past.orphans
  {
    hide Full, Delta, Down, Launched, Save, Ready, Purge, Loaded, Capture, Finish, Forgotten, RefusedSets, PurgeSet, NotOvertaken, LeftOut;
  }

  lemma Then(s: Sys, a: Step) returns (s': Sys)
    requires Reached(s) && Enabled(s, TIMES, a) && NoneRefused(s, a)
    ensures s' == Next(s, TIMES, a) && Reached(s')
  {
    hide NoneRefused, NextLedger, Next, Enabled, Accounts;
    var steps, l :| Seen(steps, s, l);
    AccountsThen(First(), EMPTY, TIMES, steps, s, l, a);
    LedgerStaysClean(s, a, l);
    s' := Next(s, TIMES, a);
    assert Seen(steps + [a], s', NextLedger(s, TIMES, a, l));
  }

  /** What the broker holds, and whether it has work. */
  ghost predicate Broker(imp: Importer, snapshot: map<Key, Param>, queued: nat, ready: bool) {
    && imp.snapshot == snapshot && imp.managed.Keys == snapshot.Keys && imp.pending == map[] && imp.unflushed == map[]
    && |imp.queue| == queued && (queued == 1 ==> imp.queue[0].ReadyJob?) && imp.ready.Some? == ready
  }

  ghost predicate BraveIs(b: Brave, up: bool, memory: Jar, disk: Jar) {
    b.alive == up && b.serving == up && b.memory == memory && b.disk == disk && b.inbox == []
  }

  ghost predicate RunIs(imp: Importer, conn: Option<nat>, todo: map<Key, Param>) {
    && imp.running.Some?
    && var r := imp.running.value;
    && r.job.ReadyJob? && r.todo == todo && r.deletes == map[] && r.refused == {} && r.conn == conn
  }

  /** The message "k is now p" while Brave is down. */
  ghost function Add(imp: Importer, k: Key, p: Param): Importer {
    Delta(imp, map[k := Change(false, p)], false)
  }

  lemma AddChanges(k: Key, p: Param)
    ensures Added(map[k := Change(false, p)]) == map[k := p] && Removed(map[k := Change(false, p)]) == map[]
  {
    assert Added(map[k := Change(false, p)]) == map[k := p];
    assert Removed(map[k := Change(false, p)]) == map[];
  }

  lemma AddHandles(imp: Importer, k: Key, p: Param, x: Key)
    ensures HandledAt(imp, Add(imp, k, p), map[k := p], {}, x) && Add(imp, k, p).queue == imp.queue &&
        OnlyHandled(imp, Add(imp, k, p), map[k := p])
  {
    AddChanges(k, p);
    DeltaHandles(imp, map[k := Change(false, p)], false, x);
    DeltaOnly(imp, map[k := Change(false, p)], false, x);
    assert Delta(imp, map[k := Change(false, p)], false).queue == imp.queue;
  }

  lemma AddWhileDown(imp: Importer, k: Key, p: Param)
    requires Broker(imp, imp.snapshot, 0, imp.ready.Some?) && imp.snapshot.Keys <= {k} && imp.running.None?
    ensures Broker(Add(imp, k, p), map[k := p], 0, imp.ready.Some?) && Add(imp, k, p).running.None? && Add(imp, k, p).epoch == imp.epoch
  {
    var imp' := Add(imp, k, p);
    AddHandles(imp, k, p, k);
    hide Add;
    forall x: Key ensures HandledAt(imp, imp', map[k := p], {}, x) {
      AddHandles(imp, k, p, x);
    }
    forall x: Key ensures (x in imp'.snapshot <==> x == k) && (x in imp'.managed <==> x == k) &&
        x !in imp'.pending && x !in imp'.unflushed {
      assert HandledAt(imp, imp', map[k := p], {}, x);
    }
    assert imp'.snapshot == map[k := p];
    assert imp'.managed.Keys == {k};
    assert imp'.pending == map[] && imp'.unflushed == map[];
  }

  lemma UnsavedKeepsFile(imp: Importer, now: nat)
    ensures Down(imp, now, TIMES.flushMs, true, false).file == imp.file
  {
    hide Flushed, Content;
  }

  lemma LaunchQueues(imp: Importer, now: nat, pid: nat, saved: bool)
    requires Broker(imp, imp.snapshot, 0, imp.ready.Some?)
    ensures var imp' := Launched(imp, pid, now, TIMES.flushMs, true, saved);
            Broker(imp', imp.snapshot, 1, true) && imp'.running == imp.running && (!saved ==> imp'.file == imp.file)
  {
    hide Down, Flushed, Ready;
    DownSettles(imp, now, TIMES.flushMs, true, saved);
    if !saved { UnsavedKeepsFile(imp, now); }
    var down := Down(imp, now, TIMES.flushMs, true, saved);
    assert imp.unflushed - Flushed(imp, now, TIMES.flushMs) == map[];
    ReadyIs(down.(launch := down.launch + 1), pid);
  }

  lemma StartReads(imp: Importer, k: Key, now: nat, p: Param)
    requires Broker(imp, map[k := p], 1, true) && imp.running.None?
    ensures if IsExpired(p, now) then Broker(Capture(imp, now), map[], 0, true) && RunIs(Capture(imp, now), None, map[])
            else Broker(Capture(imp, now), map[k := p], 0, true) && RunIs(Capture(imp, now), None, map[k := p])
  {
    var gone := ExpiredKeys(imp, now);
    assert gone == if IsExpired(p, now) then {k} else {};
    assert LostTombs(imp) == map[];
    CaptureReapplies(imp, now);
    var left: map<Key, Param> := if IsExpired(p, now) then map[] else map[k := p];
    assert imp.snapshot - gone == left;
    assert imp.pending + LostTombs(imp) == map[];
    assert TombParams(map[]) == map[];
    hide Capture, ExpiredKeys, LostTombs, TombParams;
    assert Capture(imp, now).managed.Keys == left.Keys;
  }

  lemma FinishEnds(imp: Importer, now: nat, snapshot: map<Key, Param>, conn: Option<nat>)
    requires Broker(imp, snapshot, 0, true) && RunIs(imp, conn, map[])
    ensures Broker(Finish(imp, now), snapshot, 0, true) && Finish(imp, now).running.None? && Finish(imp, now).file == imp.file
  {
    FinishesWith(imp, now);
    hide Finish;
    forall x: Key ensures x !in Finish(imp, now).pending && x !in Finish(imp, now).unflushed {
      FinishAt(imp, Finish(imp, now), now, Applied(imp, imp.running.value), RefusedSets(imp.running.value), x);
    }
    assert RefusedSets(imp.running.value) == {};
    assert imp.snapshot - {} == imp.snapshot && imp.managed - {} == imp.managed;
  }

  lemma DownForgetsNothing(imp: Importer, now: nat)
    requires Broker(imp, imp.snapshot, 0, imp.ready.Some?)
    ensures var imp' := Down(imp, now, TIMES.flushMs, false, true);
            Broker(imp', imp.snapshot, 0, false) && imp'.running == imp.running
  {
    DownSettles(imp, now, TIMES.flushMs, false, true);
    assert imp.unflushed - Flushed(imp, now, TIMES.flushMs) == map[];
    hide Down, Flushed;
  }

  // ── the run ──

  ghost predicate Idle(s: Sys, k: Key, p: Param, up: bool, memory: Jar, disk: Jar) {
    && Reached(s) && Broker(s.imp, map[k := p], 0, up) && s.imp.running.None? && BraveIs(s.brave, up, memory, disk)
    && disk.Keys <= {k} && s.past.store == map[k := p] && s.past.overwritten == {} && !s.past.purgeFailed
  }

  lemma Tells(s: Sys, k: Key, p: Param) returns (s': Sys)
    requires Reached(s) && Broker(s.imp, s.imp.snapshot, 0, false) && s.imp.snapshot.Keys <= {k} && s.imp.running.None?
    requires BraveIs(s.brave, false, s.brave.memory, s.brave.disk) && s.brave.disk.Keys <= {k} && !IsExpired(p, s.now)
    requires s.past.store.Keys <= {k} && s.past.overwritten == {} && !s.past.purgeFailed
    ensures Idle(s', k, p, false, s.brave.memory, s.brave.disk) && s'.brave == s.brave && s'.now == s.now && s'.imp.file == s.imp.file
    ensures s'.past.orphans == s.past.orphans
  {
    BridgeKeepsFile(s.imp, DeltaMessage(map[k := Change(false, p)], false));
    AddWhileDown(s.imp, k, p);
    s' := Told(s, k, p);
    hide Add;
  }

  lemma Told(s: Sys, k: Key, p: Param) returns (s': Sys)
    requires Reached(s) && !s.brave.serving && !IsExpired(p, s.now) && s.past.store.Keys <= {k}
    ensures Reached(s') && s' == s.(imp := Add(s.imp, k, p), past := s.past.(store := map[k := p], stranded := s'.past.stranded))
  {
    AddChanges(k, p);
    hide Delta;
    s' := Then(s, DeltaMessage(map[k := Change(false, p)], false));
    assert s.past.store - {} + map[k := p] == map[k := p];
  }

  lemma Relaunches(s: Sys, k: Key, p: Param, saved: bool) returns (s': Sys)
    requires Idle(s, k, p, false, s.brave.memory, s.brave.disk)
    ensures !saved ==> s'.imp.file == s.imp.file
    ensures Reached(s') && s'.now == s.now && BraveIs(s'.brave, true, s.brave.disk, s.brave.disk) && s'.brave.uncommitted == map[]
    ensures s'.past == s.past && Broker(s'.imp, map[k := p], 1, true) && s'.imp.running.None?
  {
    LaunchQueues(s.imp, s.now, 1, saved);
    hide Launched;
    s' := Then(s, Launch({k}, 1, true, saved));
    assert Restrict(s.brave.disk, {k}) == s.brave.disk;
  }

  lemma Starts(s: Sys, k: Key, p: Param) returns (s': Sys)
    requires Reached(s) && Broker(s.imp, map[k := p], 1, true) && s.imp.running.None? &&
        BraveIs(s.brave, true, s.brave.memory, s.brave.disk)
    ensures var left: map<Key, Param> := if IsExpired(p, s.now) then map[] else map[k := p];
            && Reached(s') && s'.brave == s.brave && s'.now == s.now &&
                s'.past == s.past.(stranded := s'.past.stranded, purgeFailed := false)
            && Broker(s'.imp, left, 0, true) && RunIs(s'.imp, Some(s.brave.launch), left) && s'.imp.file == s.imp.file
  {
    StartReads(s.imp, k, s.now, p);
    FileAtStart(s.imp, s.now);
    var s1 := Started1(s);
    hide Capture;
    s' := Connects(s1);
  }

  lemma Started1(s: Sys) returns (s': Sys)
    requires Reached(s) && s.imp.queue != [] && s.imp.queue[0].ReadyJob? && s.imp.running.None?
    ensures Reached(s') && s'.imp == Capture(s.imp, s.now)
    ensures s' == s.(imp := s'.imp, past := s.past.(stranded := s'.past.stranded, purgeFailed := false))
  {
    hide Capture;
    s' := Then(s, JobStart);
  }

  lemma Connects(s: Sys) returns (s': Sys)
    requires Reached(s) && s.brave.alive && s.brave.serving && s.imp.running.Some? && s.imp.running.value.conn.None?
    ensures Reached(s') && s' == s.(imp := Connect(s.imp, s.brave.launch))
  {
    s' := Then(s, JobConnect);
  }

  lemma Finishes(s: Sys, snapshot: map<Key, Param>) returns (s': Sys)
    requires Reached(s) && Broker(s.imp, snapshot, 0, true) && RunIs(s.imp, Some(s.brave.launch), map[])
    requires BraveIs(s.brave, true, s.brave.memory, s.brave.disk)
    ensures Reached(s') && Broker(s'.imp, snapshot, 0, true) && s'.imp.running.None? && s'.brave == s.brave && s'.now == s.now
    ensures s'.past == s.past.(stranded := s'.past.stranded) && s'.imp.file == s.imp.file
  {
    FinishEnds(s.imp, s.now, snapshot, Some(s.brave.launch));
    hide Finish;
    s' := Then(s, JobFinish);
  }

  lemma Sends(s: Sys, k: Key, p: Param) returns (s': Sys)
    requires Reached(s) && Broker(s.imp, map[k := p], 0, true) && RunIs(s.imp, Some(s.brave.launch), map[k := p])
    requires BraveIs(s.brave, true, map[], map[]) && s.past.overwritten == {}
    ensures Reached(s') && s'.now == s.now && BraveIs(s'.brave, true, map[k := p], map[k := p])
    ensures Broker(s'.imp, map[k := p], 0, true) && RunIs(s'.imp, Some(s'.brave.launch), map[]) && s'.past == s.past
    ensures s'.imp.file == s.imp.file
  {
    var chunk: set<Key> := {k};
    var m: map<Key, Param> := map[k := p];
    assert Restrict(m, chunk) == m && m - chunk == map[];
    var s1 := Then(s, JobSend(chunk));
    assert s1.past == s.past;
    var s2 := Processed(s1, k, p);
    s' := Committed1(s2, k, p);
  }

  lemma Processed(s: Sys, k: Key, p: Param) returns (s': Sys)
    requires Reached(s) && s.brave.alive && s.brave.inbox == [map[k := p]] && s.brave.memory == map[]
    ensures Reached(s') && s' == s.(brave := s'.brave) && s'.brave == s.brave.(memory := map[k := p], inbox := [],
        uncommitted := s'.brave.uncommitted)
    ensures k in s'.brave.uncommitted
  {
    s' := Then(s, Process);
    assert map[] + s.brave.inbox[0] == map[k := p];
  }

  lemma Committed1(s: Sys, k: Key, p: Param) returns (s': Sys)
    requires Reached(s) && s.brave.alive && s.brave.memory == map[k := p] && s.brave.disk == map[] && k in s.brave.uncommitted
    ensures Reached(s') && s' == s.(brave := s'.brave) && s'.brave == s.brave.(disk := map[k := p],
        uncommitted := s'.brave.uncommitted)
  {
    var keys: set<Key> := {k};
    s' := Then(s, Commit(keys));
    assert Restrict(s.brave.memory, keys) == map[k := p];
  }

  lemma Dies(s: Sys, k: Key, p: Param) returns (s': Sys)
    requires Idle(s, k, p, true, s.brave.memory, s.brave.disk)
    ensures Reached(s') && s'.now == s.now && s'.past == s.past && BraveIs(s'.brave, false, s.brave.memory, s.brave.disk)
    ensures Broker(s'.imp, map[k := p], 0, false) && s'.imp.running.None?
  {
    DownForgetsNothing(s.imp, s.now);
    var s1 := Then(s, Die);
    hide Down;
    s' := Then(s1, DownReport(false, true));
  }

  /** At the end Brave is up and nothing is left to do, the last instruction for k is `later`, and Brave still has the live `was`. */
  ghost predicate Strands(s: Sys, k: Key, was: Param, later: Param) {
    && Reached(s) && Quiescent(s) && !s.past.purgeFailed && k !in s.imp.pending && !Inherited(s, k) && s.past.orphans == {}
    && s.past.store == map[k := later] && s.brave.memory == map[k := was] && Live(s.brave.memory, k, s.now)
    && IsExpired(later, s.now)
  }

  /** A first Brave comes up, and its apply starts. */
  lemma FirstApply(k: Key, p: Param) returns (s: Sys)
    requires !IsExpired(p, 1000)
    ensures Reached(s) && Broker(s.imp, map[k := p], 0, true) && RunIs(s.imp, Some(s.brave.launch), map[k := p])
    ensures BraveIs(s.brave, true, map[], map[]) && s.now == 1000
    ensures s.past.store == map[k := p] && s.past.overwritten == {} && s.past.orphans == {} && !s.past.purgeFailed
  {
    FirstReached();
    s := Tells(First(), k, p);
    s := Relaunches(s, k, p, true);
    s := Starts(s, k, p);
  }

  /** ... and then has the cookie, on disk too. */
  lemma Stored(k: Key, p: Param) returns (s: Sys)
    requires !IsExpired(p, 1000)
    ensures Idle(s, k, p, true, map[k := p], map[k := p]) && s.now == 1000 && s.past.orphans == {}
  {
    s := FirstApply(k, p);
    s := Sends(s, k, p);
    s := Finishes(s, map[k := p]);
  }

  /** It dies, Chrome replaces the cookie, and the successor expires. */
  lemma Replaced(k: Key, was: Param, later: Param, at: nat) returns (s: Sys)
    requires !IsExpired(later, 1000) && IsExpired(later, at) && !IsExpired(was, at)
    ensures Idle(s, k, later, false, map[k := was], map[k := was]) && s.now == at && s.past.orphans == {}
  {
    assert at >= 1000 && !IsExpired(was, 1000);
    s := Stored(k, was);
    s := Dies(s, k, was);
    s := Tells(s, k, later);
    s := Waits(s, k, later, at);
  }

  lemma Waits(s: Sys, k: Key, p: Param, at: nat) returns (s': Sys)
    requires Idle(s, k, p, false, s.brave.memory, s.brave.disk) && s.now <= at
    ensures Idle(s', k, p, false, s.brave.memory, s.brave.disk) && s'.brave == s.brave && s'.now == at && s'.past == s.past
  {
    s' := Then(s, Tick(at));
  }

  lemma ReplacedStrands(k: Key, was: Param, later: Param, at: nat) returns (s: Sys)
    requires !IsExpired(later, 1000) && IsExpired(later, at) && !IsExpired(was, at)
    ensures Strands(s, k, was, later)
  {
    s := Replaced(k, was, later, at);
    s := Relaunches(s, k, later, true);
    s := Starts(s, k, later);
    s := Finishes(s, map[]);
  }

  /** At the end Brave is up and nothing is left to do, the last instruction for k is NEW, and Brave still has a live OLD. */
  lemma StrandedKeyDiffers() returns (s: Sys)
    ensures Reached(s) && Init(First()) && Timely(TIMES)
    ensures Quiescent(s) && !s.past.purgeFailed && !Inherited(s, "k")
    ensures s.past.store == map["k" := NEW] && s.brave.memory == map["k" := OLD] && Live(s.brave.memory, "k", s.now)
    ensures !Agrees(s, "k")
  {
    FirstReached();
    s := ReplacedStrands("k", OLD, NEW, 20000);
  }

  /** The condition of LengtheningAgrees cannot be less: whenever a cookie of k would replace one that outlives it, a run on which it
      does ends with everything else that lemma asks, and Brave does not agree with the store on k. */
  lemma ShorteningStrands(k: Key, was: Param, later: Param) returns (steps: seq<Step>, s: Sys, l: Ledger)
    requires !Within(was, later) && !IsExpired(later, 1000)
    ensures Init(First()) && Timely(TIMES) && Accounts(First(), EMPTY, TIMES, steps, s, l)
    ensures Quiescent(s) && k !in l.refused && k !in l.forgotten && k !in s.imp.pending && !Inherited(s, k)
    ensures s.past.store == map[k := later] && s.brave.memory == map[k := was] && !Agrees(s, k)
  {
    FirstReached();
    var at := Deadline(later.expires.value);
    ExpiresAtDeadline(later, at);
    ExpiresAtDeadline(later, 1000);
    ExpiresAtDeadline(was, at);
    s := ReplacedStrands(k, was, later, at);
    steps, l :| Seen(steps, s, l);
  }
}
