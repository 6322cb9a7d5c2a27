// What a run has seen of each key beside the broker's own state: refusals, restarts that
// forgot it, and its last accepted cookie; and what a key the broker gave up on can still
// hold (src/cookie-bridge/importer.js).
module StoreAgreement {
  import opened Cookies
  import opened ImporterState
  import opened BraveReplication
  import opened ReplicationInvariant
  import opened ReplicationProofs
  import opened ReplicationRuns

  /** What the run has seen. refused: keys Brave refused a cookie or a deletion of; forgotten: keys a restart did not find in the
      state file; both not mentioned since. last: the last accepted cookie of each key. */
  datatype Ledger = Ledger(refused: set<Key>, forgotten: set<Key>, last: map<Key, Param>)

  const EMPTY := Ledger({}, {}, map[])

  ghost function Told(l: Ledger, sets: map<Key, Param>, gone: set<Key>): Ledger {
    Ledger(l.refused - gone - sets.Keys, l.forgotten - gone - sets.Keys, l.last + sets)
  }

  /** The cookies a step tells the broker to set, and the keys it tells it to forget. */
  ghost function SetsOf(s: Sys, a: Step): map<Key, Param> {
    match a
    case FullBatch(id, items, _, _) => NotOvertaken(s.imp, id, items)
    case DeltaMessage(ch, _) => Added(ch)
    case _ => map[]
  }

  ghost function GoneOf(s: Sys, a: Step): set<Key> {
    match a
    case FullBatch(id, items, last, _) => if last then LeftOut(s.imp, id, items) else {}
    case DeltaMessage(ch, _) => Removed(ch).Keys
    case _ => {}
  }

  ghost function NextLedger(s: Sys, t: Timing, a: Step, l: Ledger): Ledger
    requires Enabled(s, t, a)
  {
    match a
    case FullBatch(_, _, _, _) => Told(l, SetsOf(s, a), GoneOf(s, a))
    case DeltaMessage(_, _) => Told(l, SetsOf(s, a), GoneOf(s, a))
    case JobRefused(k) => l.(refused := l.refused + {k})
    case JobFinish => if PurgeRunning(s) then l else l.(refused := l.refused + RefusedSets(s.imp.running.value))
    case BrokerRestart => l.(forgotten := l.forgotten + Forgotten(s.imp))
    case _ => l
  }

  /** The run of `steps` from s0 ends in s, and l is what it has seen. */
  ghost predicate Accounts(s0: Sys, l0: Ledger, t: Timing, steps: seq<Step>, s: Sys, l: Ledger)
    decreases |steps|
  {
    if steps == [] then s == s0 && l == l0
    else Enabled(s0, t, steps[0]) && Accounts(Next(s0, t, steps[0]), NextLedger(s0, t, steps[0], l0), t, steps[1..], s, l)
  }

  // ── a stranded key has no live value in the store ──

  ghost predicate StoreDead(s: Sys, l: Ledger, k: Key) {
    k in s.past.stranded && k !in l.refused ==> !Live(s.past.store, k, s.now)
  }

  lemma DeadAtBridge(s: Sys, t: Timing, a: Step, l: Ledger, k: Key)
    requires StoreDead(s, l, k) && Enabled(s, t, a) && BridgeStep(a)
    ensures StoreDead(NextBridge(s, a), NextLedger(s, t, a, l), k)
  {
    hide Full, Delta, NotOvertaken, LeftOut, Added, Removed;
  }

  lemma DeadAtStart(s: Sys, t: Timing, l: Ledger, k: Key)
    requires KeyInv(s, k) && StoreDead(s, l, k) && Enabled(s, t, JobStart)
    ensures StoreDead(NextJob(s, t, JobStart), l, k)
  {
    assert StoreAgrees(s, k) && MapsAgree(s, k);
    hide KeyInv, Capture, NothingToApply, LostTombs, TombParams;
    if s.imp.queue[0].ReadyJob? {
      SkipIs(s.imp, s.now);
      if !NothingToApply(s.imp) { CaptureReapplies(s.imp, s.now); }
    } else {
      var sets, deletes := CaptureStarts(s.imp, s.now, k);
    }
  }

  lemma DeadAtFinish(s: Sys, t: Timing, l: Ledger, k: Key)
    requires StoreDead(s, l, k) && Enabled(s, t, JobFinish)
    ensures StoreDead(NextJob(s, t, JobFinish), NextLedger(s, t, JobFinish, l), k)
  {
    var r := s.imp.running.value;
    FinishesWith(s.imp, s.now);
    FinishAt(s.imp, Finish(s.imp, s.now), s.now, Applied(s.imp, r), if r.job.PurgeJob? then {} else RefusedSets(r), k);
    hide Finish, FinishedWith, Applied;
  }

  lemma DeadAtBrave(s: Sys, t: Timing, a: Step, l: Ledger, k: Key)
    requires StoreDead(s, l, k) && Enabled(s, t, a) && BraveStep(a)
    ensures StoreDead(NextBrave(s, t, a), l, k)
  {
    hide Down, Launched, Started, Committed, Dead, MarkUncommitted;
  }

  lemma DeadAtBroker(s: Sys, t: Timing, a: Step, l: Ledger, k: Key)
    requires StoreDead(s, l, k) && Enabled(s, t, a) && BrokerStep(a)
    ensures StoreDead(NextBroker(s, t, a), NextLedger(s, t, a, l), k)
  {
    hide Ready, Save, Purge, Loaded, PurgeSet, Forgotten, RefusedDeletions;
  }

  lemma DeadAtJob(s: Sys, t: Timing, a: Step, l: Ledger, k: Key)
    requires StoreDead(s, l, k) && Enabled(s, t, a) && (a.JobConnect? || a.JobSend? || a.JobRefused? || a.JobFail?)
    ensures StoreDead(NextJob(s, t, a), NextLedger(s, t, a, l), k)
  {
    hide Connect, Sent, Refused, Fail, Restrict;
  }

  lemma DeadKept(s: Sys, t: Timing, a: Step, l: Ledger, k: Key)
    requires Inv(s, t) && StoreDead(s, l, k) && Enabled(s, t, a)
    ensures StoreDead(Next(s, t, a), NextLedger(s, t, a, l), k)
  {
    assert KeyInv(s, k);
    hide Inv, KeyInv, StoreDead, NextBrave, NextBridge, NextBroker, NextJob, Enabled;
    if BraveStep(a) { DeadAtBrave(s, t, a, l, k); }
    else if BridgeStep(a) { DeadAtBridge(s, t, a, l, k); }
    else if BrokerStep(a) { DeadAtBroker(s, t, a, l, k); }
    else if a.JobStart? { DeadAtStart(s, t, l, k); }
    else if a.JobFinish? { DeadAtFinish(s, t, l, k); }
    else { DeadAtJob(s, t, a, l, k); }
  }

  lemma {:induction false} StoreDies(s0: Sys, l0: Ledger, t: Timing, steps: seq<Step>, s: Sys, l: Ledger, k: Key)
    requires Inv(s0, t) && Timely(t) && StoreDead(s0, l0, k) && Accounts(s0, l0, t, steps, s, l)
    ensures Inv(s, t) && StoreDead(s, l, k)
    decreases |steps|
  {
    if steps != [] {
      hide Inv, StoreDead, Next, NextLedger;
      InvKept(s0, t, steps[0]);
      DeadKept(s0, t, steps[0], l0, k);
      StoreDies(Next(s0, t, steps[0]), NextLedger(s0, t, steps[0], l0), t, steps[1..], s, l, k);
    }
  }

  // ── sets that never shorten a cookie's life ──

  /** p expires no later than q, by the millisecond; a session cookie outlives every other. */
  predicate Within(p: Param, q: Param) {
    q.expires.None? || (p.expires.Some? && Deadline(p.expires.value) <= Deadline(q.expires.value))
  }

  /** The step does not replace k's last cookie by one that expires earlier: something to see before the message is sent. */
  ghost predicate Lengthens(s: Sys, a: Step, l: Ledger, k: Key) {
    k in SetsOf(s, a) && k in l.last ==> Within(l.last[k], SetsOf(s, a)[k])
  }

  ghost predicate AllLengthen(s0: Sys, l0: Ledger, t: Timing, steps: seq<Step>, k: Key)
    decreases |steps|
  {
    steps == [] || (Enabled(s0, t, steps[0]) && Lengthens(s0, steps[0], l0, k) &&
                    AllLengthen(Next(s0, t, steps[0]), NextLedger(s0, t, steps[0], l0), t, steps[1..], k))
  }

  ghost predicate Bounded(j: Jar, l: Ledger, k: Key) {
    k in j ==> j[k].expires == Some(1.0) || (k in l.last && Within(j[k], l.last[k]))
  }

  /** Every value of k anywhere expires no later than its last accepted cookie. */
  ghost predicate ValuesBounded(s: Sys, l: Ledger, k: Key) {
    && Bounded(s.brave.memory, l, k) && Bounded(s.brave.disk, l, k)
    && (forall m :: m in s.brave.inbox ==> Bounded(m, l, k))
    && (Running(s) ==> Bounded(s.imp.running.value.todo, l, k))
    && (k in s.imp.snapshot ==> k in l.last && s.imp.snapshot[k] == l.last[k])
  }

  /** A key given up on because its cookie expired: that was its last cookie. */
  ghost predicate Lapsed(s: Sys, l: Ledger, k: Key) {
    k in s.past.stranded && k !in l.refused && k !in l.forgotten && k in l.last ==> IsExpired(l.last[k], s.now)
  }

  ghost predicate LifeInv(s: Sys, l: Ledger, k: Key) {
    ValuesBounded(s, l, k) && Lapsed(s, l, k)
  }
}
