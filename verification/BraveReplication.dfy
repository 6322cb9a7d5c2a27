// The bridge's importer together with the Brave it writes to: a memory jar, a
// disk jar with a bounded commit delay, crashes that lose what was not
// committed, late 'down' reports, and messages that arrive after the broker
// gave up on them. Every handler, every queued apply (start, send, answer,
// failure) and every move of Brave is one step; all of them interleave.
module BraveReplication {
  import opened Cookies
  import opened ImporterState

  type Jar = map<Key, Param>

  /** Commit delay, delay of the 'down' report, and how long a tombstone is kept (all ms). */
  datatype Timing = Timing(commitMs: nat, reportMs: nat, flushMs: nat)

  /** `serving`: the proxy serves this launch, no 'down' yet. After a death `memory` stays as it was then. */
  datatype Brave = Brave(
    launch: nat, alive: bool, serving: bool, epoch: int,
    memory: Jar, disk: Jar, uncommitted: map<Key, nat>, diedAt: nat,
    inbox: seq<Jar>)

  /** store: the simple store, what the accepted instructions of this broker's life ask for.
      stranded: dropped by the broker because they expired in the snapshot or Brave
      refused them, or unknown to a new broker because the state file lacked them; not since
      re-synced or deleted. orphans: stranded in an earlier broker's life, or their deletion was refused. overwritten: keys a site in Brave
      changed after the bridge last wrote them. purgeFailed: a purge's apply failed. */
  datatype History = History(store: map<Key, Param>, stranded: set<Key>, orphans: set<Key>, overwritten: set<Key>,
      purgeFailed: bool)

  datatype Sys = Sys(imp: Importer, brave: Brave, now: nat, past: History)

  ghost predicate Live(j: Jar, k: Key, now: nat) {
    k in j && !IsExpired(j[k], now)
  }

  /** What a jar holds of k that has not expired. */
  ghost function LiveValue(j: Jar, k: Key, now: nat): Option<Param> {
    if Live(j, k, now) then Some(j[k]) else None
  }

  ghost function Overlay(j: Jar, msgs: seq<Jar>): Jar
    decreases |msgs|
  {
    if msgs == [] then j else Overlay(j + msgs[0], msgs[1..])
  }

  ghost predicate LiveIn(msgs: seq<Jar>, k: Key, now: nat) {
    exists i :: 0 <= i < |msgs| && Live(msgs[i], k, now)
  }

  // ── steps ──

  datatype Step =
    | Tick(later: nat)
    | Commit(keys: set<Key>)
    | SiteWrite(key: Key)
    | Process
    | Die
    | DownReport(up: bool, saved: bool)
    | Launch(kept: set<Key>, pid: nat, up: bool, saved: bool)
    | LatePipe(pid: nat, up: bool, saved: bool)
    | FullBatch(bridge: nat, items: map<Key, Param>, last: bool, up: bool)
    | DeltaMessage(changes: map<Key, Change>, up: bool)
    | BridgeConnects(bridge: nat)
    | BridgeCloses(bridge: nat)
    | EnsureBrave(pid: nat)
    | PurgeRequest
    | JobStart
    | JobConnect
    | JobSend(chunk: set<Key>)
    | JobRefused(key: Key)
    | JobFinish
    | JobFail
    | SaveState(up: bool, saved: bool)
    | BrokerRestart

  ghost predicate CommitDue(b: Brave, t: Timing, at: nat) {
    b.alive ==> forall k :: k in b.uncommitted ==> at - b.uncommitted[k] < t.commitMs
  }

  ghost predicate ReportDue(b: Brave, t: Timing, at: nat) {
    b.serving && !b.alive ==> at - b.diedAt <= t.reportMs
  }

  /** `up` is what supervisor.isUp() says: true whenever a served Brave is alive. */
  ghost predicate UpFlag(b: Brave, up: bool) {
    b.serving && b.alive ==> up
  }

  ghost predicate Running(s: Sys) {
    s.imp.running.Some?
  }

  ghost predicate Attached(s: Sys) {
    Running(s) && s.imp.running.value.conn == Some(s.brave.launch)
  }

  /** A change Brave would keep: a cookie whose expiry has not passed (the broker treats the others as removals). */
  ghost predicate LiveChanges(ch: map<Key, Change>, now: nat) {
    forall k :: k in ch && !ch[k].removed ==> !IsExpired(ch[k].param, now)
  }

  ghost predicate Enabled(s: Sys, t: Timing, a: Step) {
    match a
    case Tick(later) => s.now <= later && CommitDue(s.brave, t, later) && ReportDue(s.brave, t, later)
    case Commit(keys) => s.brave.alive && keys <= s.brave.uncommitted.Keys
    case SiteWrite(_) => s.brave.alive
    case Process => s.brave.alive && s.brave.inbox != []
    case Die => s.brave.alive
    case DownReport(up, _) => s.brave.serving
    case Launch(_, _, up, _) => !s.brave.alive && !s.brave.serving
    case LatePipe(_, _, _) => !s.brave.serving
    case FullBatch(_, items, _, up) => UpFlag(s.brave, up) && forall k :: k in items ==> !IsExpired(items[k], s.now)
    case DeltaMessage(ch, up) => UpFlag(s.brave, up) && LiveChanges(ch, s.now)
    case BridgeConnects(_) => s.imp.bridge.None?
    case BridgeCloses(_) => true
    case EnsureBrave(_) => true
    case PurgeRequest => s.imp.bridge.None?
    case JobStart => s.imp.queue != [] && !Running(s)
    case JobConnect => Running(s) && s.imp.running.value.conn.None? && s.brave.serving && s.brave.alive
    case JobSend(chunk) => Attached(s) && s.brave.serving && s.brave.alive && chunk <= s.imp.running.value.todo.Keys
    case JobRefused(k) => Attached(s) && s.brave.alive && k in s.imp.running.value.todo
    case JobFinish => Running(s) && s.imp.running.value.conn.Some? && s.imp.running.value.todo == map[] &&
                      (Attached(s) ==> s.brave.inbox == [])
    case JobFail => Running(s)
    case SaveState(up, _) => UpFlag(s.brave, up)
    case BrokerRestart => true
  }

  /** The deletions Brave refused to the running job so far. */
  ghost function RefusedDeletions(imp: Importer): set<Key> {
    if imp.running.Some? then imp.running.value.refused * imp.running.value.deletes.Keys else {}
  }

  /** The keys a new broker does not learn of: the state file has neither the cookie nor its deletion. */
  ghost function Forgotten(imp: Importer): set<Key> {
    var known := imp.managed.Keys + imp.pending.Keys + imp.unflushed.Keys;
    if imp.file.None? then known else known - imp.file.value.managed.Keys - imp.file.value.pending.Keys
  }

  ghost function Instructed(past: History, sets: map<Key, Param>, gone: set<Key>): History {
    past.(store := (past.store - gone) + sets, stranded := past.stranded - gone - sets.Keys)
  }

  ghost function MarkUncommitted(b: Brave, keys: set<Key>, now: nat): map<Key, nat> {
    MapOf(b.uncommitted.Keys + keys, k => if k in b.uncommitted then b.uncommitted[k] else now)
  }

  ghost function Committed(b: Brave, keys: set<Key>): Brave {
    b.(disk := (b.disk - keys) + Restrict(b.memory, keys), uncommitted := b.uncommitted - keys)
  }

  ghost function Dead(b: Brave, now: nat): Brave {
    b.(alive := false, diedAt := now)
  }

  /** A new process: what it does not load from disk (session cookies, expired ones) is gone from disk too. */
  ghost function Started(b: Brave, kept: set<Key>, epoch: nat): Brave {
    b.(launch := b.launch + 1, alive := true, serving := true, epoch := epoch,
       disk := Restrict(b.disk, kept), memory := Restrict(b.disk, kept), uncommitted := map[], inbox := [])
  }

  // ── what a step does: Brave, the bridge's messages, the broker, the running job ──

  predicate BraveStep(a: Step) {
    a.Tick? || a.Commit? || a.SiteWrite? || a.Process? || a.Die? || a.DownReport? || a.Launch? || a.LatePipe?
  }

  predicate BridgeStep(a: Step) {
    a.FullBatch? || a.DeltaMessage? || a.BridgeConnects? || a.BridgeCloses?
  }

  predicate BrokerStep(a: Step) {
    a.EnsureBrave? || a.PurgeRequest? || a.SaveState? || a.BrokerRestart?
  }

  ghost function NextBrave(s: Sys, t: Timing, a: Step): Sys
    requires Enabled(s, t, a) && BraveStep(a)
  {
    var imp, b, past := s.imp, s.brave, s.past;
    match a
    case Tick(later) => s.(now := later)
    case Commit(keys) => s.(brave := Committed(b, keys))
    case SiteWrite(k) =>
      s.(brave := b.(memory := b.memory - {k}, uncommitted := MarkUncommitted(b, {k}, s.now)),
         past := past.(overwritten := past.overwritten + {k}))
    case Process =>
      s.(brave := b.(memory := b.memory + b.inbox[0], inbox := b.inbox[1..],
                     uncommitted := MarkUncommitted(b, b.inbox[0].Keys, s.now)))
    case Die => s.(brave := Dead(b, s.now))
    case DownReport(up, ok) => s.(imp := Down(imp, s.now, t.flushMs, up, ok), brave := b.(serving := false))
    case Launch(kept, pid, up, ok) =>
      var imp' := Launched(imp, pid, s.now, t.flushMs, up, ok);
      s.(imp := imp', brave := Started(b, kept, imp'.epoch))
    case LatePipe(pid, up, ok) => s.(imp := Launched(imp, pid, s.now, t.flushMs, up, ok))
  }

  ghost function NextBridge(s: Sys, a: Step): Sys
    requires BridgeStep(a)
  {
    var imp, past := s.imp, s.past;
    match a
    case FullBatch(id, items, last, up) =>
      s.(imp := Full(imp, id, items, last, up),
         past := Instructed(past, NotOvertaken(imp, id, items), if last then LeftOut(imp, id, items) else {}))
    case DeltaMessage(ch, up) => s.(imp := Delta(imp, ch, up), past := Instructed(past, Added(ch), Removed(ch).Keys))
    case BridgeConnects(id) => s.(imp := Connected(imp, id))
    case BridgeCloses(id) => s.(imp := ConnClosed(imp, id))
  }

  ghost function NextBroker(s: Sys, t: Timing, a: Step): Sys
    requires BrokerStep(a)
  {
    var imp, b, past := s.imp, s.brave, s.past;
    match a
    case EnsureBrave(pid) => s.(imp := Ready(imp, pid))
    case PurgeRequest =>
      s.(imp := Purge(imp), past := past.(store := map[], stranded := past.stranded - (PurgeSet(imp).Keys - RefusedDeletions(imp))))
    case SaveState(up, ok) => s.(imp := Save(imp, s.now, t.flushMs, up, ok))
    case BrokerRestart =>
      s.(imp := Loaded(imp.file), brave := (if b.alive then Dead(b, s.now) else b).(serving := false, epoch := -1, inbox := []),
         past := past.(store := map[], stranded := past.stranded + Forgotten(imp), orphans := past.orphans + past.stranded + Forgotten(imp),
                       purgeFailed := false))
  }

  ghost function NextJob(s: Sys, t: Timing, a: Step): Sys
    requires Enabled(s, t, a) && !BraveStep(a) && !BridgeStep(a) && !BrokerStep(a)
  {
    var imp, b, past := s.imp, s.brave, s.past;
    match a
    case JobStart =>
      var imp' := Capture(imp, s.now);
      s.(imp := imp', past := past.(stranded := past.stranded + (imp.managed.Keys - imp'.managed.Keys),
          purgeFailed := past.purgeFailed && imp.queue[0].PurgeJob? && imp.queue[0].id < |imp.replaced|))
    case JobConnect => s.(imp := Connect(imp, b.launch))
    case JobSend(chunk) =>
      s.(imp := Sent(imp, chunk), brave := b.(inbox := b.inbox + [Restrict(imp.running.value.todo, chunk)]),
         past := past.(overwritten := past.overwritten - chunk))
    case JobRefused(k) =>
      s.(imp := Refused(imp, k),
         past := past.(stranded := if k in imp.managed || k in imp.running.value.deletes then past.stranded + {k} else past.stranded,
                       orphans := if k in imp.running.value.deletes then past.orphans + {k} else past.orphans))
    case JobFinish =>
      var imp' := Finish(imp, s.now);
      s.(imp := imp', past := past.(stranded := past.stranded + (imp.managed.Keys - imp'.managed.Keys)))
    case JobFail => s.(imp := Fail(imp), past := past.(purgeFailed := past.purgeFailed || imp.running.value.job.PurgeJob?))
  }

  ghost function Next(s: Sys, t: Timing, a: Step): Sys
    requires Enabled(s, t, a)
  {
    if BraveStep(a) then NextBrave(s, t, a)
    else if BridgeStep(a) then NextBridge(s, a)
    else if BrokerStep(a) then NextBroker(s, t, a)
    else NextJob(s, t, a)
  }
}
