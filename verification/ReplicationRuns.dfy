// Runs of the replication, and what holds on every one of them.
module ReplicationRuns {
  import opened Cookies
  import opened ImporterState
  import opened BraveReplication
  import opened ReplicationInvariant
  import opened ReplicationProofs

  /** A first broker and a Brave whose disk holds nothing of the bridge's. */
  ghost predicate Init(s: Sys) {
    && s.imp == Loaded(None) && 1000 <= s.now
    && s.brave == Brave(0, false, false, -1, map[], map[], map[], 0, [])
    && s.past == History(map[], {}, {}, {}, false)
  }

  /** The run of `steps` from s0 ends in s. */
  ghost predicate Reaches(s0: Sys, t: Timing, steps: seq<Step>, s: Sys)
    decreases |steps|
  {
    if steps == [] then s == s0
    else Enabled(s0, t, steps[0]) && Reaches(Next(s0, t, steps[0]), t, steps[1..], s)
  }

  ghost predicate Timely(t: Timing) {
    0 < t.commitMs && t.commitMs + t.reportMs <= t.flushMs
  }

  lemma InitHolds(s: Sys, t: Timing)
    requires Init(s)
    ensures Inv(s, t)
  {
    forall k ensures KeyInv(s, k) {
      RestartIdle(s, k);
    }
  }

  lemma BraveKept(s: Sys, t: Timing, a: Step, k: Key)
    requires Inv(s, t) && Timely(t) && Enabled(s, t, a) && BraveStep(a)
    ensures KeyInv(NextBrave(s, t, a), k)
  {
    assert KeyInv(s, k);
    hide KeyInv, Launched, Down;
    var s' := NextBrave(s, t, a);
    match a
    case Tick(later) => TickKeeps(s, later, k);
    case Commit(keys) => CommitKeeps(s, keys, k);
    case SiteWrite(x) => SiteWriteKeeps(s, s', x, k);
    case Process => ProcessKeeps(s, s', k);
    case Die => DieKeeps(s, k);
    case DownReport(up, ok) => DownKeeps(s, t, s', up, ok, k);
    case Launch(kept, pid, up, ok) => LaunchKeeps(s, t, s', kept, pid, up, ok, k);
    case LatePipe(pid, up, ok) => LaunchedKeeps(s, t, s', pid, up, ok, k);
  }

  lemma FullKept(s: Sys, t: Timing, a: Step, k: Key)
    requires KeyInv(s, k) && 1000 <= s.now && a.FullBatch? && Enabled(s, t, a)
    ensures KeyInv(NextBridge(s, a), k)
  {
    assert UpFlag(s.brave, a.up);
    assert k in a.items ==> a.items[k].expires != Some(1.0);
    hide KeyInv, Full, Instructed, NotOvertaken, LeftOut, Enabled;
    FullKeeps(s, NextBridge(s, a), a.bridge, a.items, a.last, a.up, k);
  }

  lemma DeltaKept(s: Sys, t: Timing, a: Step, k: Key)
    requires KeyInv(s, k) && 1000 <= s.now && a.DeltaMessage? && Enabled(s, t, a)
    ensures KeyInv(NextBridge(s, a), k)
  {
    assert UpFlag(s.brave, a.up);
    assert k in a.changes && !a.changes[k].removed ==> a.changes[k].param.expires != Some(1.0);
    hide KeyInv, Delta, Instructed, Added, Removed, Enabled;
    DeltaKeeps(s, NextBridge(s, a), a.changes, a.up, k);
  }

  lemma BridgeKept(s: Sys, t: Timing, a: Step, k: Key)
    requires Inv(s, t) && Enabled(s, t, a) && BridgeStep(a)
    ensures KeyInv(NextBridge(s, a), k)
  {
    assert KeyInv(s, k);
    hide KeyInv, Enabled;
    if a.FullBatch? {
      hide NextBridge;
      FullKept(s, t, a, k);
    } else if a.DeltaMessage? {
      hide NextBridge;
      DeltaKept(s, t, a, k);
    } else {
      BridgeKeeps(s, NextBridge(s, a), k);
    }
  }

  lemma BrokerKept(s: Sys, t: Timing, a: Step, k: Key)
    requires Inv(s, t) && Timely(t) && Enabled(s, t, a) && BrokerStep(a)
    ensures KeyInv(NextBroker(s, t, a), k)
  {
    assert KeyInv(s, k);
    hide KeyInv, Save, Purge, Ready, Loaded;
    var s' := NextBroker(s, t, a);
    match a
    case EnsureBrave(pid) => ReadyIs(s.imp, pid); ReadyKeeps(s, s', k);
    case PurgeRequest => PurgeKeeps(s, s', k);
    case SaveState(up, ok) => SaveKeeps(s, t, up, ok, k);
    case BrokerRestart => assert FileClean(s.imp, k); RestartKeeps(s, s', k);
  }

  lemma JobKept(s: Sys, t: Timing, a: Step, k: Key)
    requires Inv(s, t) && Enabled(s, t, a) && !BraveStep(a) && !BridgeStep(a) && !BrokerStep(a)
    ensures KeyInv(NextJob(s, t, a), k)
  {
    assert KeyInv(s, k);
    hide KeyInv, Fail, Capture, Finish;
    var s' := NextJob(s, t, a);
    match a
    case JobStart => StartKept(s, t, k);
    case JobConnect => ConnectKeeps(s, s', k);
    case JobSend(chunk) => SendKeeps(s, s', chunk, k);
    case JobRefused(x) => assert KeyInv(s, x); RefusedKeeps(s, s', x, k);
    case JobFinish => FinishKept(s, t, k);
    case JobFail => FailOnly(s.imp); FailKeeps(s, s', k);
  }

  lemma StartKept(s: Sys, t: Timing, k: Key)
    requires Inv(s, t) && Enabled(s, t, JobStart)
    ensures KeyInv(NextJob(s, t, JobStart), k)
  {
    assert KeyInv(s, k);
    var s' := NextJob(s, t, JobStart);
    if !s.imp.queue[0].ReadyJob? {
      hide KeyInv, Capture;
      var sets, deletes := CaptureStarts(s.imp, s.now, k);
      StartKeeps(s, s', sets, deletes, {}, k);
    } else {
      ReapplyKept(s, s', k);
    }
  }

  ghost predicate Reapplies(s: Sys, s': Sys) {
    && !Running(s) && s.imp.queue != [] && s.imp.queue[0].ReadyJob? && 1000 <= s.now
    && s' == s.(imp := Capture(s.imp, s.now),
                past := s.past.(stranded := s.past.stranded + (s.imp.managed.Keys - s'.imp.managed.Keys), purgeFailed := false))
  }

  lemma ReapplyStarts(s: Sys, s': Sys, k: Key)
    requires KeyInv(s, k) && Reapplies(s, s') && s'.imp.running.Some?
    ensures KeyInv(s', k)
  {
    assert k in s.imp.pending ==> k !in s.imp.unflushed;
    var gone, lost := ExpiredKeys(s.imp, s.now), LostTombs(s.imp);
    CaptureReapplies(s.imp, s.now);
    ReappliesAll(s.imp, s'.imp, s.now, k);
    hide KeyInv, Capture, LostTombs, ExpiredKeys, Captures;
    StartKeeps(s, s', s.imp.snapshot - gone, s.imp.pending + lost, gone, k);
  }

  lemma ReapplyKept(s: Sys, s': Sys, k: Key)
    requires KeyInv(s, k) && Reapplies(s, s')
    ensures KeyInv(s', k)
  {
    hide KeyInv;
    if s'.imp.running.None? {
      SkipKeeps(s, s', k);
    } else {
      hide Capture;
      ReapplyStarts(s, s', k);
    }
  }

  lemma FinishKept(s: Sys, t: Timing, k: Key)
    requires Inv(s, t) && Enabled(s, t, JobFinish)
    ensures KeyInv(NextJob(s, t, JobFinish), k)
  {
    assert KeyInv(s, k);
    var r := s.imp.running.value;
    var dropped := if r.job.PurgeJob? then {} else RefusedSets(r);
    FinishesWith(s.imp, s.now);
    hide KeyInv;
    FinishKeeps(s, NextJob(s, t, JobFinish), Applied(s.imp, r), dropped, k);
  }

  // ── the parts that are not about one key ──

  lemma ClockKept(s: Sys, t: Timing, a: Step)
    requires Clock(s, t) && Enabled(s, t, a)
    requires forall k :: k in s.brave.uncommitted ==> s.brave.uncommitted[k] <= s.now
    requires Timely(t)
    ensures Clock(Next(s, t, a), t)
  {
    hide Launched, Down, Full, Delta, Save, Purge, Ready, Loaded, Capture, Finish, Fail;
  }

  ghost predicate Ordered(s: Sys) {
    Epochs(s) && Tokens(s.imp) && Jobs(s.imp)
  }

  /** Nothing about jobs and launches changed; only messages may have been taken. */
  lemma OrderSame(s: Sys, s': Sys)
    requires Ordered(s)
    requires s'.imp.epoch == s.imp.epoch && s'.imp.running == s.imp.running && s'.imp.queue == s.imp.queue
    requires s'.imp.ready == s.imp.ready && s'.imp.token == s.imp.token && s'.imp.replaced == s.imp.replaced
    requires s'.brave.serving == s.brave.serving && s'.brave.epoch == s.brave.epoch && s'.brave.launch == s.brave.launch
    requires (s'.brave.alive ==> s.brave.alive) && (s.brave.inbox == [] ==> s'.brave.inbox == [])
    ensures Ordered(s')
  {
  }

  lemma OrderAtDown(s: Sys, s': Sys, dropped: set<Key>)
    requires Ordered(s) && OnlySettled(s.imp, s'.imp, dropped) && s'.imp.epoch == s.imp.epoch + 1 && s'.imp.ready.None?
    requires s'.brave == s.brave.(serving := false)
    ensures Ordered(s')
  {
  }

  lemma OrderAtStart(s: Sys, kept: set<Key>)
    requires Ordered(s) && !s.brave.serving && s.imp.ready.None?
    ensures Ordered(s.(brave := Started(s.brave, kept, s.imp.epoch)))
  {
  }

  lemma OrderAtReady(s: Sys, s': Sys)
    requires Ordered(s) && OnlyReady(s.imp, s'.imp) && s' == s.(imp := s'.imp)
    requires s'.imp.ready.Some? ==> s'.imp.ready.value + 1 == s'.imp.token
    requires if s'.imp.queue == s.imp.queue then s'.imp.token == s.imp.token else s'.imp.token == s.imp.token + 1
    ensures Ordered(s')
  {
    ReadyTokens(s.imp, s'.imp);
    QueueGrows(s.imp.queue, ReadyJob(s.imp.token));
    if s'.imp.queue != s.imp.queue {
      assert ReadyJob(s.imp.token) in s'.imp.queue;
    }
  }

  lemma OrderAtJob(s: Sys, s': Sys, job: Job)
    requires Ordered(s) && s'.brave == s.brave
    requires !job.ReadyJob? && (job.PurgeJob? ==> job.id <= |s'.imp.replaced|) && |s.imp.replaced| <= |s'.imp.replaced|
    requires s'.imp.queue == s.imp.queue || s'.imp.queue == s.imp.queue + [job]
    requires s'.imp.ready == s.imp.ready && s'.imp.token == s.imp.token && s'.imp.running == s.imp.running &&
        s'.imp.epoch == s.imp.epoch
    ensures Ordered(s')
  {
    if s'.imp.queue != s.imp.queue {
      OthersAppended(s.imp, s'.imp, job);
    }
  }

  lemma OrderAtPop(s: Sys, s': Sys)
    requires Ordered(s) && !Running(s) && s.imp.queue != []
    requires s'.brave == s.brave && s'.imp.queue == s.imp.queue[1..] && s'.imp.epoch == s.imp.epoch
    requires s'.imp.ready == s.imp.ready && s'.imp.token == s.imp.token && s'.imp.replaced == s.imp.replaced
    requires Running(s') ==>
               var r := s'.imp.running.value;
               r.job == s.imp.queue[0] && r.epoch == s.imp.epoch && r.conn.None?
    ensures Ordered(s')
  {
    var q := s.imp.queue;
    QueueHead(q);
    assert q[0] in q;
    forall i | 0 <= i < |q[1..]| && q[1..][i].ReadyJob? && q[1..][i].token + 1 != s.imp.token ensures ReadyQueued(q[1..][i + 1..]) {
      assert q[i + 1] == q[1..][i] && q[1..][i + 1..] == q[i + 2..];
    }
  }

  /** The running job went on: connected, sent, or was refused a cookie. */
  lemma OrderAtRun(s: Sys, s': Sys)
    requires Ordered(s) && Running(s) && Running(s')
    requires s'.imp == s.imp.(running := s'.imp.running)
    requires var r, r' := s.imp.running.value, s'.imp.running.value;
             && r' == r.(todo := r'.todo, refused := r'.refused, conn := r'.conn)
             && (r'.conn == r.conn || (r'.conn == Some(s.brave.launch) && s.brave.serving))
    requires s'.brave == s.brave.(inbox := s'.brave.inbox) && (s'.brave.inbox == s.brave.inbox || Attached(s'))
    ensures Ordered(s')
  {
  }

  lemma OrderAtEnd(s: Sys, s': Sys)
    requires Ordered(s) && Running(s) && !Running(s') && s'.brave == s.brave
    requires s'.imp.queue == s.imp.queue && s'.imp.epoch == s.imp.epoch && s'.imp.token == s.imp.token &&
        s'.imp.replaced == s.imp.replaced
    requires s'.imp.ready == s.imp.ready || s'.imp.ready.None?
    ensures Ordered(s')
  {
  }

  /** A newly queued re-apply is the newest. */
  lemma ReadyTokens(imp: Importer, imp': Importer)
    requires Tokens(imp) && Jobs(imp) && OnlyReady(imp, imp')
    requires imp'.ready.Some? ==> imp'.ready.value + 1 == imp'.token
    requires if imp'.queue == imp.queue then imp'.token == imp.token else imp'.token == imp.token + 1
    ensures Tokens(imp') && Jobs(imp')
  {
    if imp'.queue != imp.queue {
      var job := ReadyJob(imp.token);
      assert job in imp'.queue;
      forall i | 0 <= i < |imp'.queue| && imp'.queue[i].ReadyJob? && imp'.queue[i].token + 1 != imp'.token
        ensures ReadyQueued(imp'.queue[i + 1..])
      {
        assert imp'.queue[i + 1..][|imp.queue| - i - 1] == job;
      }
    }
  }

  /** Jobs that are no re-apply leave the order of the re-applies alone. */
  lemma TokensAppended(imp: Importer, imp': Importer, job: Job)
    requires Tokens(imp) && !job.ReadyJob?
    requires imp'.queue == imp.queue + [job] && imp'.ready == imp.ready && imp'.token == imp.token && imp'.running == imp.running
    ensures Tokens(imp')
  {
    hide ReadyQueued;
    QueueGrows(imp.queue, job);
    forall i | 0 <= i < |imp'.queue| && imp'.queue[i].ReadyJob? && imp'.queue[i].token + 1 != imp'.token
      ensures ReadyQueued(imp'.queue[i + 1..])
    {
      assert imp'.queue[i + 1..] == imp.queue[i + 1..] + [job];
      QueueGrows(imp.queue[i + 1..], job);
    }
  }

  lemma OthersAppended(imp: Importer, imp': Importer, job: Job)
    requires Tokens(imp) && Jobs(imp) && !job.ReadyJob? && (job.PurgeJob? ==> job.id <= |imp'.replaced|) && |imp.replaced| <= |imp'.replaced|
    requires imp'.queue == imp.queue + [job] && imp'.ready == imp.ready && imp'.token == imp.token && imp'.running == imp.running
    ensures Tokens(imp') && Jobs(imp') && (ReadyQueued(imp.queue) ==> ReadyQueued(imp'.queue))
  {
    TokensAppended(imp, imp', job);
    QueueGrows(imp.queue, job);
    hide Tokens, ReadyQueued;
  }

  /** Brave is reported down, or a launch comes up: first everything there is settled. */
  lemma DownOrdered(s: Sys, t: Timing, up: bool, ok: bool) returns (down: Sys)
    requires Ordered(s) && (forall k :: k in s.imp.unflushed ==> s.imp.unflushed[k].epoch <= s.imp.epoch)
    ensures down == s.(imp := Down(s.imp, s.now, t.flushMs, up, ok), brave := s.brave.(serving := false))
    ensures Ordered(down) && down.imp.ready.None?
  {
    hide Ordered, Down;
    DownSettles(s.imp, s.now, t.flushMs, up, ok);
    down := s.(imp := Down(s.imp, s.now, t.flushMs, up, ok), brave := s.brave.(serving := false));
    OrderAtDown(s, down, Flushed(s.imp, s.now, t.flushMs));
  }

  /** ... then the launch is owed its re-apply. */
  lemma LaunchOrdered(s: Sys, pid: nat)
    requires Ordered(s) && s.imp.ready.None?
    ensures Ordered(s.(imp := Ready(s.imp.(launch := s.imp.launch + 1), pid)))
  {
    hide Ordered;
    var mid := s.(imp := s.imp.(launch := s.imp.launch + 1));
    OrderSame(s, mid);
    ReadyIs(mid.imp, pid);
    OrderAtReady(mid, s.(imp := Ready(mid.imp, pid)));
  }

  lemma PipeOrdered(s: Sys, t: Timing, pid: nat, up: bool, ok: bool)
    requires Ordered(s) && (forall k :: k in s.imp.unflushed ==> s.imp.unflushed[k].epoch <= s.imp.epoch) && !s.brave.serving
    ensures Ordered(s.(imp := Launched(s.imp, pid, s.now, t.flushMs, up, ok)))
  {
    hide Ordered, Down, Ready;
    var down := DownOrdered(s, t, up, ok);
    assert s.brave.(serving := false) == s.brave;
    LaunchOrdered(down, pid);
  }

  lemma StartedOrdered(s: Sys, t: Timing, kept: set<Key>, pid: nat, up: bool, ok: bool)
    requires Ordered(s) && (forall k :: k in s.imp.unflushed ==> s.imp.unflushed[k].epoch <= s.imp.epoch)
    ensures var imp' := Launched(s.imp, pid, s.now, t.flushMs, up, ok);
      Ordered(s.(imp := imp', brave := Started(s.brave, kept, imp'.epoch)))
  {
    hide Ordered, Down;
    var down := DownOrdered(s, t, up, ok);
    OrderAtStart(down, kept);
    var mid := down.(brave := Started(down.brave, kept, down.imp.epoch));
    LaunchOrdered(mid, pid);
    assert Started(down.brave, kept, down.imp.epoch) == Started(s.brave, kept, down.imp.epoch);
    hide Started;
  }

  lemma QuietOrdered(s: Sys, t: Timing, a: Step)
    requires Ordered(s) && Enabled(s, t, a) && BraveStep(a) && !a.DownReport? && !a.Launch? && !a.LatePipe?
    ensures Ordered(NextBrave(s, t, a))
  {
    hide Ordered, MarkUncommitted, Restrict, CommitDue, ReportDue;
    OrderSame(s, NextBrave(s, t, a));
  }

  lemma BraveOrdered(s: Sys, t: Timing, a: Step)
    requires Inv(s, t) && Enabled(s, t, a) && BraveStep(a)
    ensures Ordered(NextBrave(s, t, a))
  {
    assert Ordered(s);
    UnflushedEpochs(s, t);
    hide Ordered, Inv, Down, Launched, Started;
    match a
    case DownReport(up, ok) => var _ := DownOrdered(s, t, up, ok);
    case LatePipe(pid, up, ok) => PipeOrdered(s, t, pid, up, ok);
    case Launch(kept, pid, up, ok) => StartedOrdered(s, t, kept, pid, up, ok);
    case _ => QuietOrdered(s, t, a);
  }

  lemma BridgeOrdered(s: Sys, t: Timing, a: Step)
    requires Inv(s, t) && Enabled(s, t, a) && BridgeStep(a)
    ensures Ordered(NextBridge(s, a))
  {
    var s' := NextBridge(s, a);
    assert Ordered(s);
    hide Ordered, Inv, Full, Delta;
    match a
    case FullBatch(id, items, last, up) =>
      FullOnly(s.imp, id, items, last, up, "");
      OrderAtJob(s, s', ApplyJob(NotOvertaken(s.imp, id, items).Keys));
    case DeltaMessage(ch, up) =>
      DeltaOnly(s.imp, ch, up, "");
      OrderAtJob(s, s', ApplyJob(Added(ch).Keys));
    case BridgeConnects(id) => OrderSame(s, s');
    case BridgeCloses(id) => OrderSame(s, s');
  }

  lemma BrokerOrdered(s: Sys, t: Timing, a: Step)
    requires Inv(s, t) && Enabled(s, t, a) && BrokerStep(a)
    ensures Ordered(NextBroker(s, t, a))
  {
    var s' := NextBroker(s, t, a);
    assert Ordered(s);
    match a
    case EnsureBrave(pid) => hide Ordered, Inv; ReadyIs(s.imp, pid); OrderAtReady(s, s');
    case PurgeRequest => hide Ordered, Inv; OrderAtJob(s, s', PurgeJob(|s.imp.replaced| + 1));
    case SaveState(up, ok) =>
      hide Ordered, Inv, Save;
      var dropped := SaveSettles(s.imp, s.now, t.flushMs, up, ok);
      OrderSame(s, s');
    case BrokerRestart =>
  }

  lemma StartOrdered(s: Sys, t: Timing)
    requires Inv(s, t) && Enabled(s, t, JobStart)
    ensures Ordered(NextJob(s, t, JobStart))
  {
    var s' := NextJob(s, t, JobStart);
    assert Ordered(s);
    hide Ordered, Inv, Capture, NothingToApply, StartedWith;
    CapturePops(s.imp, s.now);
    OrderAtPop(s, s');
  }

  lemma StartedPops(imp: Importer, imp': Importer, sets: map<Key, Param>, deletes: map<Key, Tomb>, expired: set<Key>)
    requires imp.queue != [] && StartedWith(imp, imp', sets, deletes, expired)
    ensures imp'.queue == imp.queue[1..] && imp'.epoch == imp.epoch && imp'.ready == imp.ready && imp'.token == imp.token
    ensures imp'.replaced == imp.replaced && imp'.running.Some?
    ensures var r := imp'.running.value;
      r.job == imp.queue[0] && r.epoch == imp.epoch && r.conn.None?
  {
  }

  /** A job that starts leaves the queue; a re-apply with nothing to do is over at once. */
  lemma CapturePops(imp: Importer, now: nat)
    requires imp.queue != [] && imp.running.None?
    ensures
      var imp' := Capture(imp, now);
      && imp'.queue == imp.queue[1..] && imp'.epoch == imp.epoch && imp'.ready == imp.ready && imp'.token == imp.token
      && imp'.replaced == imp.replaced
      && (imp'.running.Some? ==>
            var r := imp'.running.value;
            r.job == imp.queue[0] && r.epoch == imp.epoch && r.conn.None?)
  {
    hide Capture, NothingToApply, StartedWith, Captures;
    if imp.queue[0].ReadyJob? {
      SkipIs(imp, now);
      if !NothingToApply(imp) {
        CaptureReapplies(imp, now);
        StartedPops(imp, Capture(imp, now), imp.snapshot - ExpiredKeys(imp, now), imp.pending + LostTombs(imp), ExpiredKeys(imp, now));
      }
    } else {
      var sets, deletes := CaptureStarts(imp, now, "");
      StartedPops(imp, Capture(imp, now), sets, deletes, {});
    }
  }

  lemma JobOrdered(s: Sys, t: Timing, a: Step)
    requires Inv(s, t) && Enabled(s, t, a) && !BraveStep(a) && !BridgeStep(a) && !BrokerStep(a)
    ensures Ordered(NextJob(s, t, a))
  {
    var s' := NextJob(s, t, a);
    assert Ordered(s) && Tokens(s.imp);
    hide Ordered, Inv, Capture, Finish, Tokens;
    match a
    case JobStart => StartOrdered(s, t);
    case JobConnect => OrderAtRun(s, s');
    case JobSend(chunk) => hide Restrict; OrderAtRun(s, s');
    case JobRefused(k) => OrderAtRun(s, s');
    case JobFinish => FinishesWith(s.imp, s.now); hide Applied; OrderAtEnd(s, s');
    case JobFail => FailOnly(s.imp); hide Fail; OrderAtEnd(s, s');
  }

  lemma CleanKept(s: Sys, imp': Importer, k: Key)
    requires KeyInv(s, k) && FileClean(s.imp, k) && (imp'.file.None? || FileKept(s.imp, imp'))
    ensures FileClean(imp', k)
  {
    hide FileKept, StoreAgrees, Traced, Flushing, Deleting, PurgeTombs, SetsConverge, LostReapplied, Collected;
    if imp'.file.Some? { FileStaysClean(s, imp', k); }
  }

  /** The file is as it was, written from the state, or deleted. */
  lemma FileMoves(s: Sys, t: Timing, a: Step)
    requires Enabled(s, t, a)
    ensures var imp' := Next(s, t, a).imp; imp'.file.None? || FileKept(s.imp, imp')
  {
    hide NextBrave, NextBridge, NextBroker, NextJob, Enabled, FileKept;
    if BraveStep(a) { FileAtBrave(s, t, a); }
    else if BridgeStep(a) { FileAtBridge(s, a); }
    else if BrokerStep(a) { FileAtBroker(s, t, a); }
    else { FileAtJob(s, t, a); }
  }

  lemma FileAtBrave(s: Sys, t: Timing, a: Step)
    requires Enabled(s, t, a) && BraveStep(a)
    ensures FileKept(s.imp, NextBrave(s, t, a).imp)
  {
    hide Down, Ready, Content, Started, Committed, MarkUncommitted, Dead;
    if a.DownReport? || a.Launch? || a.LatePipe? {
      DownKeepsFile(s.imp, s.now, t.flushMs, a.up, a.saved);
      var d := Down(s.imp, s.now, t.flushMs, a.up, a.saved);
      if !a.DownReport? {
        ReadyIs(d.(launch := d.launch + 1), a.pid);
      }
    }
  }

  lemma FileAtBridge(s: Sys, a: Step)
    requires BridgeStep(a)
    ensures FileKept(s.imp, NextBridge(s, a).imp)
  {
    assert NextBridge(s, a).imp.file == s.imp.file by {
      hide SetSynced, Forget, NotOvertaken, LeftOut, StagingOf, Touch, Added, Removed, ApplyNow;
      BridgeKeepsFile(s.imp, a);
    }
  }

  lemma BridgeKeepsFile(imp: Importer, a: Step)
    requires BridgeStep(a)
    ensures a.FullBatch? ==> Full(imp, a.bridge, a.items, a.last, a.up).file == imp.file
    ensures a.DeltaMessage? ==> Delta(imp, a.changes, a.up).file == imp.file
  {
    hide NotOvertaken, LeftOut, StagingOf, Touch, Added, Removed, Identities, DeletedIdentity, SyncDirties;
  }

  lemma FileAtBroker(s: Sys, t: Timing, a: Step)
    requires BrokerStep(a)
    ensures FileKept(s.imp, NextBroker(s, t, a).imp)
  {
    hide Save, Content, PurgeSet;
    if a.SaveState? { SaveKeepsFile(s.imp, s.now, t.flushMs, a.up, a.saved); }
  }

  lemma FileAtStart(imp: Importer, now: nat)
    requires imp.queue != [] && imp.running.None?
    ensures Capture(imp, now).file == imp.file
  {
    hide Capture, NothingToApply, TombParams, ExpiredKeys, LostTombs;
    if imp.queue[0].ReadyJob? {
      SkipIs(imp, now);
      if !NothingToApply(imp) { CaptureReapplies(imp, now); }
    } else {
      var sets, deletes := CaptureStarts(imp, now, "");
    }
  }

  lemma FileAtFinish(imp: Importer, now: nat)
    requires imp.running.Some?
    ensures Finish(imp, now).file.None? || Finish(imp, now).file == imp.file
  {
    hide NowHeld, Applied, RefusedSets;
  }

  lemma FileAtJob(s: Sys, t: Timing, a: Step)
    requires Enabled(s, t, a) && !BraveStep(a) && !BridgeStep(a) && !BrokerStep(a)
    ensures var imp' := NextJob(s, t, a).imp; imp'.file.None? || FileKept(s.imp, imp')
  {
    hide Capture, Finish, Connect, Sent, Refused, Fail, Restrict;
    match a
    case JobStart => FileAtStart(s.imp, s.now);
    case JobConnect => ConnectOnly(s.imp, s.brave.launch);
    case JobSend(chunk) => SentOnly(s.imp, chunk);
    case JobRefused(x) => RefusedOnly(s.imp, x);
    case JobFinish => FileAtFinish(s.imp, s.now);
    case JobFail => FailedOnly(s.imp);
  }

  /** No purge started, and the one that runs did not fail. */
  ghost predicate SamePurge(s: Sys, s': Sys) {
    && s'.past.purgeFailed == s.past.purgeFailed && |s.imp.replaced| <= |s'.imp.replaced|
    && (Running(s') ==> Running(s) && s'.imp.running.value.job == s.imp.running.value.job)
    && (s'.imp.queue == s.imp.queue || exists job: Job :: !job.PurgeJob? && s'.imp.queue == s.imp.queue + [job])
  }

  lemma FreshStays(s: Sys, s': Sys)
    requires NewestFresh(s) && Jobs(s.imp) && SamePurge(s, s')
    ensures NewestFresh(s')
  {
  }

  lemma FreshAtBrave(s: Sys, t: Timing, a: Step)
    requires Inv(s, t) && Enabled(s, t, a) && BraveStep(a)
    ensures SamePurge(s, NextBrave(s, t, a))
  {
    UnflushedEpochs(s, t);
    hide Inv, Down, Ready, Started, Committed, MarkUncommitted;
    assert forall token: nat :: !ReadyJob(token).PurgeJob?;
    if a.DownReport? || a.Launch? || a.LatePipe? {
      DownSettles(s.imp, s.now, t.flushMs, a.up, a.saved);
      var down := Down(s.imp, s.now, t.flushMs, a.up, a.saved);
      if !a.DownReport? { ReadyIs(down.(launch := down.launch + 1), a.pid); }
    }
  }

  lemma FreshAtBridge(s: Sys, t: Timing, a: Step)
    requires Enabled(s, t, a) && BridgeStep(a)
    ensures SamePurge(s, NextBridge(s, a))
  {
    hide Full, Delta, NotOvertaken, LeftOut, Added, Removed;
    match a
    case FullBatch(id, items, last, up) => FullOnly(s.imp, id, items, last, up, "");
    case DeltaMessage(ch, up) => DeltaOnly(s.imp, ch, up, "");
    case _ =>
  }

  lemma FreshAtBroker(s: Sys, t: Timing, a: Step)
    requires Enabled(s, t, a) && BrokerStep(a) && NewestFresh(s) && Jobs(s.imp)
    ensures NewestFresh(NextBroker(s, t, a))
  {
    hide Ready, Save, PurgeSet, Jobs, RefusedDeletions, Forgotten;
    match a
    case EnsureBrave(pid) => ReadyIs(s.imp, pid); FreshStays(s, NextBroker(s, t, a));
    case SaveState(up, ok) =>
      var _ := SaveSettles(s.imp, s.now, t.flushMs, up, ok);
      FreshStays(s, NextBroker(s, t, a));
    case PurgeRequest => IdsKnown(s.imp);
    case BrokerRestart =>
  }

  lemma IdsKnown(imp: Importer)
    requires Jobs(imp)
    ensures forall j :: j in imp.queue && j.PurgeJob? ==> j.id <= |imp.replaced|
    ensures imp.running.Some? && imp.running.value.job.PurgeJob? ==> imp.running.value.job.id <= |imp.replaced|
  {
  }

  lemma AscendPops(imp: Importer, imp': Importer)
    requires PurgesAscend(imp) && imp.queue != [] && imp'.queue == imp.queue[1..]
    requires imp'.running.Some? ==> imp'.running.value.job == imp.queue[0]
    ensures PurgesAscend(imp')
  {
    var q := imp.queue;
    assert forall i :: 0 <= i < |q[1..]| ==> q[1..][i] == q[i + 1];
  }

  lemma FreshAtStart(s: Sys, t: Timing)
    requires Enabled(s, t, JobStart) && NewestFresh(s)
    ensures NewestFresh(NextJob(s, t, JobStart))
  {
    hide Capture, PurgesAscend;
    CapturePops(s.imp, s.now);
    AscendPops(s.imp, Capture(s.imp, s.now));
  }

  /** The job goes on or is over; nothing is queued. */
  ghost predicate SameRun(imp: Importer, imp': Importer) {
    && imp'.queue == imp.queue && imp'.replaced == imp.replaced
    && (imp'.running.Some? ==> imp.running.Some? && imp'.running.value.job == imp.running.value.job)
  }

  lemma RunGoesOn(imp: Importer, launch: nat, chunk: set<Key>, k: Key)
    requires imp.running.Some?
    ensures SameRun(imp, Connect(imp, launch)) && SameRun(imp, Sent(imp, chunk)) && SameRun(imp, Refused(imp, k))
  {
  }

  lemma RunFinishes(imp: Importer, now: nat)
    requires imp.running.Some?
    ensures SameRun(imp, Finish(imp, now)) && Finish(imp, now).running.None?
  {
    hide Finish, Applied, NowHeld, RefusedSets;
    FinishesWith(imp, now);
  }

  lemma RunFails(imp: Importer)
    requires imp.running.Some?
    ensures SameRun(imp, Fail(imp)) && Fail(imp).running.None?
  {
    assert Fail(imp).running.None?;
    hide Fail;
    FailedOnly(imp);
  }

  lemma FreshAtRun(s: Sys, s': Sys)
    requires NewestFresh(s) && SameRun(s.imp, s'.imp) && (Running(s') ==> s'.past.purgeFailed == s.past.purgeFailed)
    ensures NewestFresh(s')
  {
  }

  lemma FreshAtJob(s: Sys, t: Timing, a: Step)
    requires Enabled(s, t, a) && !BraveStep(a) && !BridgeStep(a) && !BrokerStep(a) && NewestFresh(s)
    ensures NewestFresh(NextJob(s, t, a))
  {
    hide NewestFresh, SameRun, Connect, Sent, Refused, Finish, Fail, Capture, Restrict;
    if a.JobStart? {
      FreshAtStart(s, t);
    } else {
      RunGoesOn(s.imp, s.brave.launch, if a.JobSend? then a.chunk else {}, if a.JobRefused? then a.key else "");
      RunFinishes(s.imp, s.now);
      RunFails(s.imp);
      FreshAtRun(s, NextJob(s, t, a));
    }
  }

  lemma FreshKept(s: Sys, t: Timing, a: Step)
    requires Inv(s, t) && Enabled(s, t, a)
    ensures NewestFresh(Next(s, t, a))
  {
    hide NewestFresh, NextBrave, NextBridge, NextBroker, NextJob, Enabled;
    if BraveStep(a) {
      FreshAtBrave(s, t, a);
      FreshStays(s, Next(s, t, a));
    } else if BridgeStep(a) {
      FreshAtBridge(s, t, a);
      FreshStays(s, Next(s, t, a));
    } else if BrokerStep(a) {
      FreshAtBroker(s, t, a);
    } else {
      FreshAtJob(s, t, a);
    }
  }

  lemma InvKept(s: Sys, t: Timing, a: Step)
    requires Inv(s, t) && Timely(t) && Enabled(s, t, a)
    ensures Inv(Next(s, t, a), t)
  {
    var s' := Next(s, t, a);
    assert Clock(s', t) by {
      forall k | k in s.brave.uncommitted ensures s.brave.uncommitted[k] <= s.now {
        assert KeyInv(s, k);
      }
      ClockKept(s, t, a);
    }
    FreshKept(s, t, a);
    assert Ordered(s') by {
      hide NextBrave, NextBridge, NextBroker, NextJob, Enabled;
      if BraveStep(a) { BraveOrdered(s, t, a); }
      else if BridgeStep(a) { BridgeOrdered(s, t, a); }
      else if BrokerStep(a) { BrokerOrdered(s, t, a); }
      else { JobOrdered(s, t, a); }
    }
    hide NextBrave, NextBridge, NextBroker, NextJob, Enabled, KeyInv, Clock;
    FileMoves(s, t, a);
    forall k ensures FileClean(s'.imp, k) {
      CleanKept(s, s'.imp, k);
    }
    forall k ensures KeyInv(s', k) {
      if BraveStep(a) { BraveKept(s, t, a, k); }
      else if BridgeStep(a) { BridgeKept(s, t, a, k); }
      else if BrokerStep(a) { BrokerKept(s, t, a, k); }
      else { JobKept(s, t, a, k); }
    }
  }

  /** The invariant holds at the end of every run. */
  lemma {:induction false} RunHolds(s0: Sys, t: Timing, steps: seq<Step>, s: Sys)
    requires Inv(s0, t) && Timely(t) && Reaches(s0, t, steps, s)
    ensures Inv(s, t)
    decreases |steps|
  {
    if steps != [] {
      InvKept(s0, t, steps[0]);
      RunHolds(Next(s0, t, steps[0]), t, steps[1..], s);
    }
  }
}
