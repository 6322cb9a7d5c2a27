// What the broker's own steps promise beside the replication: one re-apply per launch, what
// a refusal leaves, and when saving starts again (src/cookie-bridge/importer.js).
module BrokerHabits {
  import opened Cookies
  import opened ImporterState
  import opened BraveReplication
  import opened ReplicationInvariant
  import opened ReplicationProofs
  import opened ReplicationRuns

  /** While a launch's re-apply is awaited, the same Brave is not given another: only its failure, a 'down' or a new launch does that. */
  lemma ReadyShares(imp: Importer, pid: nat)
    ensures Ready(Ready(imp, pid), pid) == Ready(imp, pid)
    ensures Ready(imp, pid).ready.Some?
  {
  }

  /** A new launch is given one of its own, even with the pid of the Brave before it. */
  lemma LaunchReapplies(s0: Sys, t: Timing, steps: seq<Step>, s: Sys, kept: set<Key>, pid: nat, up: bool, saved: bool)
    requires Init(s0) && Timely(t) && Reaches(s0, t, steps, s) && Enabled(s, t, Launch(kept, pid, up, saved))
    ensures var imp, imp' := s.imp, Next(s, t, Launch(kept, pid, up, saved)).imp;
      imp'.queue == imp.queue + [ReadyJob(imp.token)] && imp'.ready == Some(imp.token) && imp'.epoch > imp.epoch
  {
    InitHolds(s0, t);
    RunHolds(s0, t, steps, s);
    UnflushedEpochs(s, t);
    hide Inv, Down, Ready;
    DownSettles(s.imp, s.now, t.flushMs, up, saved);
    var down := Down(s.imp, s.now, t.flushMs, up, saved);
    ReadyIs(down.(launch := down.launch + 1), pid);
    NewToken(down.(launch := down.launch + 1), pid);
  }

  lemma NewToken(imp: Importer, pid: nat)
    requires imp.ready.None?
    ensures Ready(imp, pid).ready == Some(imp.token)
  {
  }

  /** When an apply is over, exactly the cookies Brave refused in it are managed no longer; a refused deletion drops nothing. */
  lemma RefusedIsDropped(s: Sys, t: Timing, k: Key)
    requires Enabled(s, t, JobFinish) && !PurgeRunning(s)
    ensures var r, imp' := s.imp.running.value, Next(s, t, JobFinish).imp;
      && (k in imp'.managed <==> k in s.imp.managed && !(k in r.refused && k !in r.deletes))
      && (k in imp'.snapshot <==> k in s.imp.snapshot && !(k in r.refused && k !in r.deletes))
  {
    var r := s.imp.running.value;
    FinishesWith(s.imp, s.now);
    FinishAt(s.imp, Finish(s.imp, s.now), s.now, Applied(s.imp, r), RefusedSets(r), k);
    hide Finish, Applied, FinishedWith;
  }

  /** A purge that finished stops the saving; the next bridge starts it again, and then a changed state is written. */
  lemma BridgeStartsSaving(s: Sys, t: Timing, id: nat, up: bool)
    requires Enabled(s, t, BridgeConnects(id)) && s.imp.dirty
    ensures var s1 := Next(s, t, BridgeConnects(id));
      Enabled(s, t, SaveState(up, true)) ==>
        && Enabled(s1, t, SaveState(up, true))
        && var imp' := Next(s1, t, SaveState(up, true)).imp; !imp'.dirty && imp'.file == Some(Content(imp'))
    ensures s.imp.purged && Enabled(s, t, SaveState(up, true)) ==> Next(s, t, SaveState(up, true)).imp.file == s.imp.file
  {
    hide Flushed;
    var s1 := Next(s, t, BridgeConnects(id));
    if Enabled(s, t, SaveState(up, true)) { SaveWrites(s1.imp, s1.now, t.flushMs, up); }
    hide Content;
  }

  lemma SaveWrites(imp: Importer, now: nat, flushMs: nat, up: bool)
    requires imp.dirty && !imp.purged
    ensures var imp' := Save(imp, now, flushMs, up, true); !imp'.dirty && imp'.file == Some(Content(imp'))
  {
    hide Flushed;
    var s1 := if imp.unflushed != map[] && up then Settle(imp, now, flushMs) else imp;
    SameContent(s1, s1.(dirty := false, file := Some(Content(s1))));
    hide Content;
  }

  lemma SameContent(imp: Importer, imp': Importer)
    requires imp'.managed == imp.managed && imp'.pending == imp.pending && imp'.unflushed == imp.unflushed
    ensures Content(imp') == Content(imp)
  {
    assert Content(imp').pending == Content(imp).pending;
  }
}
