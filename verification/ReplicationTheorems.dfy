// The bridge's promises, on every run of syncs, crashes, relaunches, purges and
// broker restarts.
module ReplicationTheorems {
  import opened Cookies
  import opened ImporterState
  import opened BraveReplication
  import opened ReplicationInvariant
  import opened ReplicationProofs
  import opened ReplicationRuns
  import opened StoreAgreement
  import opened CookieLives

  /** Brave is served, its re-apply is not owed again, no job is left and no message is on its way. */
  ghost predicate Quiescent(s: Sys) {
    InCharge(s) && s.imp.queue == [] && !Running(s) && s.brave.inbox == []
  }

  /** Brave's live value of k is the simple store's; a site in Brave may have removed it since the bridge wrote it. */
  ghost predicate Agrees(s: Sys, k: Key) {
    || LiveValue(s.brave.memory, k, s.now) == LiveValue(s.past.store, k, s.now)
    || (k in s.past.overwritten && !Live(s.brave.memory, k, s.now))
  }

  /** Synced by an earlier broker and not mentioned since. */
  ghost predicate Inherited(s: Sys, k: Key) {
    k in s.imp.managed && k !in s.imp.snapshot
  }

  /** The store asks nothing of k, but a value written earlier may be left: the broker gave k up without deleting it or a restart
      forgot it, its deletion failed in a purge, or an earlier broker synced it. */
  ghost predicate Left(s: Sys, k: Key) {
    k in s.past.stranded || k in s.imp.pending || Inherited(s, k)
  }

  /** Refinement: whenever Brave is up and nothing is left to do, it agrees with what the accepted instructions ask for on every
      key Brave did not refuse, if and only if no earlier value is alive there in case the key was left. */
  lemma SimpleStoreRefined(s0: Sys, t: Timing, steps: seq<Step>, s: Sys, l: Ledger, k: Key)
    requires Init(s0) && Timely(t) && Accounts(s0, EMPTY, t, steps, s, l)
    requires Quiescent(s) && k !in l.refused
    ensures Agrees(s, k) <==> (Left(s, k) ==> !Live(s.brave.memory, k, s.now))
    ensures k in s.imp.pending ==> s.past.purgeFailed
  {
    InitHolds(s0, t);
    StoreDies(s0, EMPTY, t, steps, s, l, k);
    assert KeyInv(s, k);
    assert Final(s) == s.brave.memory;
    if !Left(s, k) { NothingLeft(s, k); }
  }

  lemma NothingLeft(s: Sys, k: Key)
    requires KeyInv(s, k) && Quiescent(s) && !Left(s, k) && Final(s) == s.brave.memory
    ensures Agrees(s, k)
  {
    hide Deleting, PurgeTombs, Overlay;
  }

  /** A caller's form: while no accepted cookie of k expires before the one it replaces, expiry leaves nothing behind, and Brave
      agrees with the store on k unless Brave refused it, a restart forgot it, a purge of it failed or only an earlier broker
      synced it. */
  lemma LengtheningAgrees(s0: Sys, t: Timing, steps: seq<Step>, s: Sys, l: Ledger, k: Key)
    requires Init(s0) && Timely(t) && Accounts(s0, EMPTY, t, steps, s, l) && AllLengthen(s0, EMPTY, t, steps, k)
    requires Quiescent(s) && k !in l.refused && k !in l.forgotten && k !in s.imp.pending && !Inherited(s, k)
    ensures Agrees(s, k)
  {
    hide Accounts, AllLengthen, Init, Timely, Quiescent, Agrees, Inherited;
    SimpleStoreRefined(s0, t, steps, s, l, k);
    if k in s.past.stranded { NothingOlderLives(s0, t, steps, s, l, k); }
  }

  /** Once this launch's re-apply is through, a key whose last instruction was a removal is
      not in Brave, unless a removal accepted later is still on its way to it. */
  lemma DeletionIsDurable(s0: Sys, t: Timing, steps: seq<Step>, s: Sys, k: Key)
    requires Init(s0) && Timely(t) && Reaches(s0, t, steps, s)
    requires InCharge(s) && !ReadyQueued(s.imp.queue) && !(Running(s) && s.imp.running.value.job.ReadyJob?)
    requires k !in s.imp.managed && k !in s.imp.pending && k !in s.past.stranded
    ensures !LiveSomewhere(s, k) || (Live(s.brave.disk, k, s.now) && k in s.imp.unflushed)
    ensures !Live(s.brave.memory, k, s.now)
  {
    InitHolds(s0, t);
    RunHolds(s0, t, steps, s);
    assert KeyInv(s, k);
  }

  /** A tombstone the code drops belongs to a deletion that is on disk and in memory. */
  lemma TombstoneDroppedOnDisk(s0: Sys, t: Timing, steps: seq<Step>, s: Sys, k: Key)
    requires Init(s0) && Timely(t) && Reaches(s0, t, steps, s)
    requires k in Flushed(s.imp, s.now, t.flushMs) && k !in s.past.stranded
    ensures !Live(s.brave.disk, k, s.now) && !Live(s.brave.memory, k, s.now)
  {
    InitHolds(s0, t);
    RunHolds(s0, t, steps, s);
    FlushedIsOnDisk(s, t, k);
  }

  /** The running Brave has held k's deletion for as long as its writes to disk may take. */
  ghost predicate HeldLong(s: Sys, t: Timing, k: Key) {
    k in s.imp.unflushed && s.imp.unflushed[k].epoch == s.imp.epoch && s.now - s.imp.unflushed[k].at >= t.flushMs
  }

  /** When Brave goes down, exactly the tombstones go that it had held long enough; every other one is kept for the next launch. */
  lemma DownDropsHeldLong(s0: Sys, t: Timing, steps: seq<Step>, s: Sys, up: bool, saved: bool, k: Key)
    requires Init(s0) && Timely(t) && Reaches(s0, t, steps, s) && Enabled(s, t, DownReport(up, saved))
    ensures k in Next(s, t, DownReport(up, saved)).imp.unflushed <==> k in s.imp.unflushed && !HeldLong(s, t, k)
  {
    InitHolds(s0, t);
    RunHolds(s0, t, steps, s);
    UnflushedEpochs(s, t);
    DownSettles(s.imp, s.now, t.flushMs, up, saved);
    hide Inv, Down;
  }

  /** A value the bridge put, wherever it is, can be masked and purged: its key is in one of the
      sets managedMatcher is built from, unless it is an orphan no message mentioned since. */
  lemma EveryValueRecognised(s0: Sys, t: Timing, steps: seq<Step>, s: Sys, k: Key)
    requires Init(s0) && Timely(t) && Reaches(s0, t, steps, s)
    requires LiveSomewhere(s, k) && !(k in s.past.stranded && k in s.past.orphans)
    ensures k in s.imp.seen || k in s.imp.pending || k in s.imp.unflushed
  {
    InitHolds(s0, t);
    RunHolds(s0, t, steps, s);
    assert KeyInv(s, k);
  }

  /** A deletion of k that the running job does not carry is asked for: it is pending, or an earlier Brave may have lost it. */
  ghost predicate StillOwed(s: Sys, k: Key)
    requires Running(s)
  {
    || (k in s.imp.pending && k !in s.imp.running.value.deletes)
    || (k in s.imp.unflushed && s.imp.unflushed[k].epoch < s.imp.epoch)
  }

  /** When the newest purge's apply finishes on the running Brave, a value the bridge put there is left only if it was synced after
      the purge began, is an orphan, or its deletion left the purge's list before the job started: an apply ahead of it sent
      it to an earlier Brave. Then it is still asked for, and while Brave is served a job behind the purge deletes it. */
  lemma PurgeCompletes(s0: Sys, t: Timing, steps: seq<Step>, s: Sys, k: Key)
    requires Init(s0) && Timely(t) && Reaches(s0, t, steps, s)
    requires Enabled(s, t, JobFinish) && Attached(s) && PurgeRunning(s) && s.imp.running.value.job.id == |s.imp.replaced|
    requires Live(Next(s, t, JobFinish).brave.memory, k, s.now)
    ensures k in s.imp.seen || k in s.past.orphans || StillOwed(s, k)
    ensures StillOwed(s, k) && InCharge(s) ==> Collector(s.imp.queue) && (k in s.imp.unflushed ==> ReadyQueued(s.imp.queue))
  {
    InitHolds(s0, t);
    RunHolds(s0, t, steps, s);
    assert KeyInv(s, k) && Jobs(s.imp) && NewestFresh(s);
    assert Arrived(s) == s.brave.memory;
    hide Inv, Overlay, SetsConverge, StoreAgrees, PurgeTombs, Jobs;
  }

  /** The three sets a key can be in never overlap, so no tombstone undoes a sync. */
  lemma SetsAreDisjoint(s0: Sys, t: Timing, steps: seq<Step>, s: Sys, k: Key)
    requires Init(s0) && Timely(t) && Reaches(s0, t, steps, s)
    ensures k in s.imp.managed ==> k !in s.imp.pending && k !in s.imp.unflushed && k in s.imp.seen
    ensures k in s.imp.pending ==> k !in s.imp.unflushed
    ensures k in s.imp.snapshot ==> k in s.imp.managed
  {
    InitHolds(s0, t);
    RunHolds(s0, t, steps, s);
    assert KeyInv(s, k);
  }
}
