// What every step of the replication keeps, stated one key at a time.
module ReplicationInvariant {
  import opened Cookies
  import opened ImporterState
  import opened BraveReplication

  ghost predicate DeadTomb(t: Tomb) {
    t.param.expires == Some(1.0)
  }

  // ── the broker's own maps ──

  ghost predicate MapsAgree(s: Sys, k: Key) {
    var imp := s.imp;
    && (k in imp.snapshot ==> k in imp.managed && imp.snapshot[k].expires != Some(1.0))
    && (k in imp.managed ==> k in imp.seen && k !in imp.pending && k !in imp.unflushed)
    && (k in imp.pending ==> k !in imp.unflushed && DeadTomb(imp.pending[k]) && imp.pending[k].stamp < imp.stamp)
    && (k in imp.unflushed ==>
          var u := imp.unflushed[k];
          DeadTomb(u.tomb) && u.tomb.stamp < imp.stamp && u.at <= s.now && u.epoch <= imp.epoch &&
              (u.epoch == imp.epoch ==> s.brave.serving))
  }

  /** The snapshot is the simple store, but for what the broker dropped on its own. */
  ghost predicate StoreAgrees(s: Sys, k: Key) {
    k !in s.past.stranded ==>
      (k in s.imp.snapshot <==> k in s.past.store) && (k in s.imp.snapshot ==> s.imp.snapshot[k] == s.past.store[k])
  }

  ghost predicate Known(s: Sys, k: Key) {
    k in s.imp.managed || k in s.imp.pending || k in s.past.stranded
  }

  ghost predicate TodoLive(s: Sys, k: Key) {
    Running(s) && Live(s.imp.running.value.todo, k, s.now)
  }

  ghost predicate LiveSomewhere(s: Sys, k: Key) {
    Live(s.brave.memory, k, s.now) || Live(s.brave.disk, k, s.now) || LiveIn(s.brave.inbox, k, s.now) || TodoLive(s, k)
  }

  /** Wherever a bridge value is, the broker still knows the key. */
  ghost predicate Traced(s: Sys, k: Key) {
    && (Live(s.brave.memory, k, s.now) || Live(s.brave.disk, k, s.now) ==> Known(s, k) || k in s.imp.unflushed)
    && (LiveIn(s.brave.inbox, k, s.now) || TodoLive(s, k) ==> Known(s, k))
    && (k in s.past.stranded ==> k in s.imp.seen || k in s.past.orphans)
  }

  /** A tombstone of the running Brave: deleted in memory, and on disk or about to be. */
  ghost predicate Flushing(s: Sys, k: Key) {
    var b := s.brave;
    && (k in b.uncommitted ==> b.uncommitted[k] <= s.now)
    && (k !in b.uncommitted ==> (k in b.memory <==> k in b.disk) && (k in b.memory ==> b.memory[k] == b.disk[k]))
    && (k in s.imp.unflushed && s.imp.unflushed[k].epoch == s.imp.epoch && k !in s.past.stranded ==>
          && !Live(b.memory, k, s.now)
          && (Live(b.disk, k, s.now) ==> k in b.uncommitted && b.uncommitted[k] <= s.imp.unflushed[k].at))
  }

  // ── the running job and the queue ──

  ghost predicate Deleting(s: Sys, k: Key) {
    Running(s) ==>
      var r := s.imp.running.value;
      && (r.job.PurgeJob? && k in r.todo ==> k in r.deletes)
      && (k in r.deletes ==>
        && DeadTomb(r.deletes[k]) && r.deletes[k].stamp < s.imp.stamp
        && (k in r.todo ==> r.todo[k] == r.deletes[k].param)
        && (r.conn.None? ==> k in r.todo)
        && (k in r.refused ==> k in s.past.orphans && (Current(s.imp, k, r.deletes[k]) ==> k in s.past.stranded))
        && (Attached(s) && k !in r.refused ==> k in r.todo || !Live(Arrived(s), k, s.now)))
  }

  ghost predicate PurgeTombs(s: Sys, k: Key) {
    forall i :: 0 <= i < |s.imp.replaced| && k in s.imp.replaced[i] ==>
      DeadTomb(s.imp.replaced[i][k]) && s.imp.replaced[i][k].stamp < s.imp.stamp
  }

  ghost predicate Collector(q: seq<Job>) {
    exists j :: j in q && !j.PurgeJob?
  }

  ghost predicate ReadyQueued(q: seq<Job>) {
    exists j :: j in q && j.ReadyJob?
  }

  /** Is k right after job j, if `right` says whether it was before (k in the snapshot)? The live map of deletions never has such a k. */
  ghost predicate After(replaced: seq<map<Key, Tomb>>, j: Job, k: Key, right: bool) {
    match j
    case ApplyJob(keys) => k in keys || right
    case ReadyJob(_) => true
    case PurgeJob(id) => (id < |replaced| ==> k !in replaced[id]) && right
  }

  ghost predicate EndsRight(replaced: seq<map<Key, Tomb>>, q: seq<Job>, k: Key, right: bool) {
    if q == [] then right else EndsRight(replaced, q[1..], k, After(replaced, q[0], k, right))
  }

  ghost predicate WillSend(s: Sys) {
    Running(s) && (s.imp.running.value.conn.None? || Attached(s))
  }

  /** Brave's memory once it took the messages on the way. */
  ghost function Arrived(s: Sys): Jar {
    Overlay(s.brave.memory, s.brave.inbox)
  }

  /** ... and the running job sent the rest. */
  ghost function Final(s: Sys): Jar {
    if WillSend(s) then Arrived(s) + s.imp.running.value.todo else Arrived(s)
  }

  ghost predicate Matches(s: Sys, j: Jar, k: Key)
    requires k in s.imp.snapshot
  {
    if k in j then j[k] == s.imp.snapshot[k] else k in s.past.overwritten
  }

  /** Brave is served and no re-apply is owed to it. */
  ghost predicate InCharge(s: Sys) {
    s.brave.serving && s.brave.alive && s.imp.ready.Some?
  }

  ghost predicate SetsConverge(s: Sys, k: Key) {
    InCharge(s) && k in s.imp.snapshot && k !in s.past.stranded ==> EndsRight(s.imp.replaced, s.imp.queue, k, Matches(s, Final(s), k))
  }

  /** This run's deletion of k is the one asked for. */
  ghost predicate RunDeletes(s: Sys, k: Key) {
    Running(s) && k in s.imp.running.value.deletes && Current(s.imp, k, s.imp.running.value.deletes[k])
  }

  /** A tombstone an earlier Brave may have lost will be applied to this one. */
  ghost predicate LostReapplied(s: Sys, k: Key) {
    InCharge(s) && k in s.imp.unflushed && s.imp.unflushed[k].epoch != s.imp.epoch ==>
      ReadyQueued(s.imp.queue) || (s.imp.running.Some? && s.imp.running.value.job.ReadyJob? && RunDeletes(s, k))
  }

  /** The newest purge is still to start: it will delete whatever is pending then. */
  ghost predicate NewestQueued(imp: Importer) {
    exists j :: j in imp.queue && j.PurgeJob? && j.id == |imp.replaced|
  }

  ghost predicate Collected(s: Sys, k: Key) {
    InCharge(s) && k in s.imp.pending ==>
      || Collector(s.imp.queue)
      || RunDeletes(s, k)
      || NewestQueued(s.imp)
      || s.past.purgeFailed
  }

  ghost predicate PurgeRunning(s: Sys) {
    Running(s) && s.imp.running.value.job.PurgeJob?
  }

  ghost predicate KeyInv(s: Sys, k: Key) {
    && StoreAgrees(s, k) && MapsAgree(s, k) && Traced(s, k) && Flushing(s, k)
    && Deleting(s, k) && PurgeTombs(s, k)
    && SetsConverge(s, k) && LostReapplied(s, k) && Collected(s, k)
  }

  /** The state file never has k both as managed and as a deletion. */
  ghost predicate FileClean(imp: Importer, k: Key) {
    imp.file.Some? ==> !(k in imp.file.value.managed && k in imp.file.value.pending)
  }

  // ── what is not about one key ──

  ghost predicate Clock(s: Sys, t: Timing) {
    && 1000 <= s.now && s.brave.diedAt <= s.now
    && CommitDue(s.brave, t, s.now) && ReportDue(s.brave, t, s.now)
    && (!s.brave.alive ==> forall k :: k in s.brave.uncommitted ==> s.brave.diedAt - s.brave.uncommitted[k] < t.commitMs)
  }

  ghost predicate Epochs(s: Sys) {
    && (if s.brave.serving then s.imp.epoch == s.brave.epoch else s.imp.epoch > s.brave.epoch)
    && (Running(s) ==>
          var r := s.imp.running.value;
          && r.epoch <= s.imp.epoch
          && (r.conn.Some? ==> r.conn.value <= s.brave.launch && r.epoch <= s.brave.epoch)
          && (r.conn.Some? && r.conn.value < s.brave.launch ==> r.epoch < s.brave.epoch && s.brave.inbox == [])
          && (r.epoch != s.imp.epoch && InCharge(s) ==> ReadyQueued(s.imp.queue)))
  }

  /** The re-apply awaited is the newest; an older one has the newest behind it. */
  ghost predicate Tokens(imp: Importer) {
    && (imp.ready.Some? ==> imp.ready.value + 1 == imp.token)
    && (forall i :: 0 <= i < |imp.queue| && imp.queue[i].ReadyJob? && imp.queue[i].token + 1 != imp.token ==> ReadyQueued(imp.queue[i + 1..]))
    && (imp.running.Some? && imp.running.value.job.ReadyJob? && imp.running.value.job.token + 1 != imp.token ==>
        ReadyQueued(imp.queue))
  }

  ghost predicate Jobs(imp: Importer) {
    && (forall j :: j in imp.queue && j.PurgeJob? ==> j.id <= |imp.replaced|)
    && (imp.running.Some? && imp.running.value.job.PurgeJob? ==> imp.running.value.job.id <= |imp.replaced|)
  }

  /** Purges run in their order, each once. */
  ghost predicate PurgesAscend(imp: Importer) {
    && (forall i, j :: 0 <= i < j < |imp.queue| && imp.queue[i].PurgeJob? && imp.queue[j].PurgeJob? ==> imp.queue[i].id < imp.queue[j].id)
    && (imp.running.Some? && imp.running.value.job.PurgeJob? ==>
          forall j :: j in imp.queue && j.PurgeJob? ==> imp.running.value.job.id < j.id)
  }

  /** The newest purge took over whatever an earlier one that failed left pending. */
  ghost predicate NewestFresh(s: Sys) {
    && PurgesAscend(s.imp)
    && (PurgeRunning(s) && s.imp.running.value.job.id == |s.imp.replaced| ==> !s.past.purgeFailed)
  }

  ghost predicate Inv(s: Sys, t: Timing) {
    && Clock(s, t) && Epochs(s) && Tokens(s.imp) && Jobs(s.imp) && NewestFresh(s)
    && (forall k :: KeyInv(s, k))
    && (forall k :: FileClean(s.imp, k))
  }
}
