// The comment on the removals of a delta (src/cookie-bridge/importer.js): the always-allow
// list never lets a deletion reach a cookie the bridge did not put into Brave. When that
// holds, and when it does not, over all runs.
module ListRemovals {
  import opened Cookies
  import opened ImporterState
  import opened BraveReplication
  import opened ReplicationInvariant
  import opened ReplicationProofs
  import opened ReplicationRuns
  import opened ReplicationTheorems
  import opened JustifiedWrites
  import opened Policy

  // ── what was ever sent ──

  /** The step sends k to Brave as a cookie, not as a deletion. */
  ghost predicate SendsCookie(s: Sys, a: Input, k: Key) {
    && a.Other? && a.step.JobSend? && k in a.step.chunk && Running(s) && k !in s.imp.running.value.deletes
  }

  /** Some job of the run sent k as a cookie. */
  ghost predicate EverSent(o: Owner, s0: Sys, t: Timing, inputs: seq<Input>, k: Key)
    decreases |inputs|
  {
    && inputs != [] && Takes(o, s0, t, inputs[0])
    && (SendsCookie(s0, inputs[0], k) || EverSent(o, Next(s0, t, StepOf(o, s0, inputs[0])), t, inputs[1..], k))
  }

  // ── a removal that only the list could justify ──

  /** The message says k is gone, and neither the owner's flag nor the policy without the list allows its removal. */
  ghost predicate OnlyListRemoves(o: Owner, a: Input, now: nat, k: Key) {
    && a.DeltaInput? && (exists ch :: ch in a.changes && ch.cookie.key == k)
    && (forall ch :: ch in a.changes && ch.cookie.key == k ==>
      (ch.removed || IsExpired(ch.cookie.param, now)) &&
        !AdmitsRemoval(o.lists, ch.cookie.host, ch.cookie.site, ch.cookie.flagged))
  }

  /** The step leaves a deletion of k that was not there. */
  ghost predicate LeavesDeletion(s: Sys, s': Sys, k: Key) {
    k in s'.imp.pending && (k in s.imp.pending ==> s'.imp.pending[k] != s.imp.pending[k])
  }

  lemma {:induction false} TakenIfManaged(o: Owner, managed: set<Key>, a: Input, now: nat, k: Key)
    requires OnlyListRemoves(o, a, now, k)
    ensures k in Changes(o, managed, a.changes, now) <==> k in managed
    ensures k in managed ==> Changes(o, managed, a.changes, now)[k].removed
    decreases if a.DeltaInput? then |a.changes| else 0
  {
    hide AdmitsRemoval, Admits;
    var n := |a.changes| - 1;
    var ch, rest := a.changes[n], a.changes[..n];
    assert ch in a.changes;
    if exists c :: c in rest && c.cookie.key == k {
      TakenIfManaged(o, managed, DeltaInput(rest, a.up, a.at), now, k);
    } else {
      NeverMentioned(o, managed, rest, now, k);
    }
  }

  lemma {:induction false} NeverMentioned(o: Owner, managed: set<Key>, changes: seq<WireChange>, now: nat, k: Key)
    requires forall ch :: ch in changes ==> ch.cookie.key != k
    ensures k !in Changes(o, managed, changes, now)
  {
    if changes != [] { NeverMentioned(o, managed, changes[..|changes| - 1], now, k); }
  }

  lemma {:induction false} RunIsReached(o: Owner, s0: Sys, t: Timing, inputs: seq<Input>, s: Sys) returns (steps: seq<Step>)
    requires RunsTo(o, s0, t, inputs, s)
    ensures Reaches(s0, t, steps, s)
    decreases |inputs|
  {
    hide Next, StepOf;
    if inputs == [] {
      steps := [];
    } else {
      var a := StepOf(o, s0, inputs[0]);
      var rest := RunIsReached(o, Next(s0, t, a), t, inputs[1..], s);
      steps := [a] + rest;
      assert steps[1..] == rest;
    }
  }

  lemma ADelta(o: Owner, a: Input, now: nat, k: Key)
    requires OnlyListRemoves(o, a, now, k)
    ensures a.DeltaInput?
  {
  }

  lemma AreRemovals(ch: map<Key, Change>, k: Key)
    ensures k in Removed(ch) <==> k in ch && ch[k].removed
    ensures k in Added(ch) <==> k in ch && !ch[k].removed
  {
  }

  lemma DeletionIffManaged(o: Owner, s: Sys, t: Timing, a: Input, k: Key)
    requires MapsAgree(s, k) && Takes(o, s, t, a) && OnlyListRemoves(o, a, s.now, k)
    ensures LeavesDeletion(s, Next(s, t, StepOf(o, s, a)), k) <==> k in s.imp.managed
  {
    hide Changes, Delta, Added, Removed, OnlyListRemoves, StoreAgrees;
    assert a.DeltaInput? by { ADelta(o, a, s.now, k); }
    var ch := Changes(o, s.imp.managed.Keys, a.changes, s.now);
    AreRemovals(ch, k);
    TakenIfManaged(o, s.imp.managed.Keys, a, s.now, k);
    DeltaHandles(s.imp, ch, a.up, k);
    assert Next(s, t, StepOf(o, s, a)).imp == Delta(s.imp, ch, a.up);
  }

  /** Over all runs: a removal that only the list could justify leaves a deletion exactly when the broker manages the cookie,
      whether a job sent it or not: the comment would need it sent. In terms of what was accepted, for a key the broker did not give
      up: exactly when the last accepted instruction about it was to set it, or only an earlier broker synced it. */
  lemma ListReachesUnsent(o: Owner, s0: Sys, t: Timing, inputs: seq<Input>, s: Sys, a: Input, k: Key)
    requires Init(s0) && Timely(t) && RunsTo(o, s0, t, inputs, s)
    requires Takes(o, s, t, a) && OnlyListRemoves(o, a, s.now, k)
    ensures LeavesDeletion(s, Next(s, t, StepOf(o, s, a)), k) <==> k in s.imp.managed
    ensures k !in s.past.stranded ==>
      (LeavesDeletion(s, Next(s, t, StepOf(o, s, a)), k) <==> k in s.past.store || Inherited(s, k))
  {
    hide KeyInv, RunsTo, Takes, Next, StepOf, OnlyListRemoves, LeavesDeletion, Init, Timely;
    var steps := RunIsReached(o, s0, t, inputs, s);
    ManagedAgrees(s0, t, steps, s, k);
    DeletionIffManaged(o, s, t, a, k);
  }

  lemma ManagedAgrees(s0: Sys, t: Timing, steps: seq<Step>, s: Sys, k: Key)
    requires Init(s0) && Timely(t) && Reaches(s0, t, steps, s)
    ensures MapsAgree(s, k) && StoreAgrees(s, k)
  {
    InitHolds(s0, t);
    RunHolds(s0, t, steps, s);
    assert KeyInv(s, k);
  }

  // ── the caller's form: nothing was applied yet ──

  /** No apply has started, and the broker was not restarted. */
  ghost predicate NothingApplied(inputs: seq<Input>) {
    forall a :: a in inputs ==> a != Other(JobStart) && a != Other(BrokerRestart)
  }

  /** The broker manages k exactly when its snapshot has it, and nothing of k was given up. */
  ghost predicate Untouched(s: Sys, k: Key) {
    !Running(s) && (k in s.imp.managed <==> k in s.imp.snapshot) && k !in s.past.stranded
  }

  lemma UntouchedByBridge(s: Sys, a: Step, k: Key)
    requires BridgeStep(a) && Untouched(s, k)
    ensures Untouched(NextBridge(s, a), k)
  {
    hide Full, Delta, LeftOut, NotOvertaken, Added, Removed;
    match a
    case FullBatch(id, items, last, up) =>
      FullHandles(s.imp, id, items, last, up, k);
      FullOnly(s.imp, id, items, last, up, k);
    case DeltaMessage(ch, up) =>
      DeltaHandles(s.imp, ch, up, k);
      DeltaOnly(s.imp, ch, up, k);
    case _ =>
  }

  lemma UntouchedByBrave(s: Sys, t: Timing, a: Step, k: Key)
    requires Enabled(s, t, a) && BraveStep(a) && Untouched(s, k)
    ensures Untouched(NextBrave(s, t, a), k)
  {
    hide Down, Launched, FileKept, Started, Committed, MarkUncommitted, Dead;
    match a
    case DownReport(up, ok) => DownNoNews(s.imp, s.now, t.flushMs, up, ok, k);
    case Launch(_, pid, up, ok) => NoNewsAtLaunch(s.imp, pid, s.now, t.flushMs, up, ok, k);
    case LatePipe(pid, up, ok) => NoNewsAtLaunch(s.imp, pid, s.now, t.flushMs, up, ok, k);
    case _ =>
  }

  lemma NoNewsAtLaunch(imp: Importer, pid: nat, now: nat, flushMs: nat, up: bool, ok: bool, k: Key)
    ensures var imp' := Launched(imp, pid, now, flushMs, up, ok);
      imp'.snapshot == imp.snapshot && imp'.managed == imp.managed && imp'.running == imp.running
  {
    hide Down, Ready, FileKept;
    var s1 := Down(imp, now, flushMs, up, ok);
    DownNoNews(imp, now, flushMs, up, ok, k);
    ReadyNoNews(s1.(launch := s1.launch + 1), pid, k);
  }

  lemma UntouchedByBroker(s: Sys, t: Timing, a: Step, k: Key)
    requires Enabled(s, t, a) && BrokerStep(a) && a != BrokerRestart && Untouched(s, k)
    ensures Untouched(NextBroker(s, t, a), k)
  {
    hide PurgeSet, Flushed, Content;
  }

  lemma {:induction false} StaysUntouched(o: Owner, s0: Sys, t: Timing, inputs: seq<Input>, s: Sys, k: Key)
    requires Untouched(s0, k) && RunsTo(o, s0, t, inputs, s) && NothingApplied(inputs)
    ensures Untouched(s, k) && !EverSent(o, s0, t, inputs, k)
    decreases |inputs|
  {
    hide NextBrave, NextBridge, NextBroker, NextJob;
    if inputs != [] {
      var a := StepOf(o, s0, inputs[0]);
      assert inputs[0] in inputs && forall i :: i in inputs[1..] ==> i in inputs;
      assert !EverSent(o, s0, t, [], k);
      if BraveStep(a) {
        UntouchedByBrave(s0, t, a, k);
      } else if BridgeStep(a) {
        UntouchedByBridge(s0, a, k);
      } else {
        assert BrokerStep(a) && a != BrokerRestart;
        UntouchedByBroker(s0, t, a, k);
      }
      StaysUntouched(o, Next(s0, t, a), t, inputs[1..], s, k);
    }
  }

  /** A caller's form: before any apply started, such a removal leaves a deletion exactly when the last accepted instruction
      about k was to set it: synced and removed before Brave was up. No job had sent k then, so each of them breaks the comment. */
  lemma RemovedBeforeAnyApply(o: Owner, s0: Sys, t: Timing, inputs: seq<Input>, s: Sys, a: Input, k: Key)
    requires Init(s0) && Timely(t) && RunsTo(o, s0, t, inputs, s) && NothingApplied(inputs)
    requires Takes(o, s, t, a) && OnlyListRemoves(o, a, s.now, k)
    ensures LeavesDeletion(s, Next(s, t, StepOf(o, s, a)), k) <==> k in s.past.store
    ensures !EverSent(o, s0, t, inputs, k)
  {
    hide KeyInv, RunsTo, Takes, Next, StepOf, OnlyListRemoves, LeavesDeletion, EverSent, Timely, NothingApplied;
    var steps := RunIsReached(o, s0, t, inputs, s);
    ManagedAgrees(s0, t, steps, s, k);
    StaysUntouched(o, s0, t, inputs, s, k);
    DeletionIffManaged(o, s, t, a, k);
  }
}
