// From Chrome to Brave: the path from Chrome's jar to the broker and the path from the
// broker to Brave, run together. They share the broker and the clock.
module ChromeToBrave {
  import opened Cookies
  import opened ImporterState
  import B = BridgeSteps
  import C = BridgeConvergence
  import R = BraveReplication
  import I = ReplicationInvariant
  import P = ReplicationProofs
  import N = ReplicationRuns
  import T = ReplicationTheorems
  import A = StoreAgreement
  import V = CookieLives
  import L = LandedSync

  datatype Sys = Sys(chrome: B.Sys, brave: R.Sys)

  /** Arrives: the broker handles the next message. Drops: the bridge's connection goes, with the browser's port or alone. */
  datatype Step =
    | Tick(later: nat)
    | ChromeSide(bridge: B.Step)
    | Arrives(refused: set<Key>, up: bool)
    | Connects
    | Drops(portLost: bool)
    | BraveSide(broker: R.Step)

  /** A step of the extension that does not reach the broker. */
  predicate Local(s: B.Sys, a: B.Step) {
    match a
    case Tick(_) => false
    case Handled(_, _) => s.link.None?
    case LinkUp => false
    case LinkDown => false
    case PortLost => s.link.None?
    case BrokerElse(_) => false
    case _ => true
  }

  /** What the broker does with the next message. */
  ghost function Taken(s: Sys, refused: set<Key>, up: bool): R.Step
    requires s.chrome.link.Some? && s.chrome.chan != []
  {
    match s.chrome.chan[0]
    case FullMsg(items, last) => R.FullBatch(s.chrome.link.value, B.Unexpired(items, s.chrome.now), last, up)
    case DeltaMsg(changes) => R.DeltaMessage(B.Accepted(changes, refused, s.chrome.now), up)
  }

  /** A step of Brave, the broker or its jobs. Brave takes every cookie, and a new broker has no bridge yet. */
  ghost predicate Apart(s: Sys, c: R.Step) {
    && !c.Tick? && !R.BridgeStep(c)
    && (c.BrokerRestart? ==> s.chrome.link.None?)
    && (c.JobRefused? && R.Running(s.brave) ==> c.key in s.brave.imp.running.value.deletes)
  }

  ghost predicate Enabled(s: Sys, f: Key -> bool, t: R.Timing, a: Step) {
    match a
    case Tick(later) => R.Enabled(s.brave, t, R.Tick(later))
    case ChromeSide(b) => B.Enabled(s.chrome, f, b) && Local(s.chrome, b)
    case Arrives(refused, up) => s.chrome.link.Some? && B.Enabled(s.chrome, f, B.Handled(refused, up)) && R.UpFlag(s.brave.brave, up)
    case Connects => B.Enabled(s.chrome, f, B.LinkUp)
    case Drops(lost) => s.chrome.link.Some? && (lost ==> s.chrome.ext.port)
    case BraveSide(c) => R.Enabled(s.brave, t, c) && Apart(s, c)
  }

  /** The extension's part of a step, if it has one. */
  ghost function ChromePart(s: Sys, f: Key -> bool, t: R.Timing, a: Step): B.Step
    requires Enabled(s, f, t, a)
  {
    match a
    case Tick(later) => B.Tick(later)
    case ChromeSide(b) => b
    case Arrives(refused, up) => B.Handled(refused, up)
    case Connects => B.LinkUp
    case Drops(lost) => if lost then B.PortLost else B.LinkDown
    case BraveSide(c) => B.BrokerElse(R.Next(s.brave, t, c).imp)
  }

  /** Brave's and the broker's part. */
  ghost function BravePart(s: Sys, f: Key -> bool, t: R.Timing, a: Step): Option<R.Step>
    requires Enabled(s, f, t, a)
  {
    match a
    case Tick(later) => Some(R.Tick(later))
    case ChromeSide(_) => None
    case Arrives(refused, up) => Some(Taken(s, refused, up))
    case Connects => Some(R.BridgeConnects(s.chrome.links + 1))
    case Drops(_) => Some(R.BridgeCloses(s.chrome.link.value))
    case BraveSide(c) => Some(c)
  }

  // ── the two parts fit ──

  /** One broker and one clock; a full sync is staged for the connected bridge only, and no cookie was refused. */
  ghost predicate Shared(s: Sys) {
    && s.chrome.imp == s.brave.imp && s.chrome.now == s.brave.now && s.brave.imp.bridge == s.chrome.link
    && (forall id :: id in s.brave.imp.staging ==> s.chrome.link == Some(id))
    && (R.Running(s.brave) ==> s.brave.imp.running.value.refused <= s.brave.imp.running.value.deletes.Keys)
  }

  /** Both parts are possible whenever the step is. */
  ghost predicate Fits(s: Sys, f: Key -> bool, t: R.Timing, a: Step) {
    && Enabled(s, f, t, a) && B.Enabled(s.chrome, f, ChromePart(s, f, t, a))
    && (BravePart(s, f, t, a).Some? ==> R.Enabled(s.brave, t, BravePart(s, f, t, a).value))
  }

  ghost function Next(s: Sys, f: Key -> bool, t: R.Timing, a: Step): Sys
    requires Fits(s, f, t, a)
  {
    var c := BravePart(s, f, t, a);
    Sys(B.Next(s.chrome, f, ChromePart(s, f, t, a)), if c.Some? then R.Next(s.brave, t, c.value) else s.brave)
  }

  ghost predicate Inv(s: Sys, t: R.Timing) {
    Shared(s) && I.Inv(s.brave, t)
  }

  // ── what Brave's side leaves alone ──

  /** The broker's live snapshot, what full syncs staged, and the bridge are as they were, and only deletions were refused. */
  ghost predicate LeavesSync(imp: Importer, imp': Importer, now: nat) {
    && imp'.staging == imp.staging && imp'.bridge == imp.bridge
    && (forall k :: B.LiveOf(B.Get(imp'.snapshot, k), now) == B.LiveOf(B.Get(imp.snapshot, k), now))
    && (imp'.running.Some? ==> imp'.running.value.refused <= imp'.running.value.deletes.Keys)
  }

  /** No cookie was refused to the running job. */
  ghost predicate OnlyDeletionsRefused(imp: Importer) {
    imp.running.Some? ==> imp.running.value.refused <= imp.running.value.deletes.Keys
  }

  lemma ReadyLeaves(imp: Importer, pid: nat, now: nat)
    requires OnlyDeletionsRefused(imp)
    ensures LeavesSync(imp, Ready(imp, pid), now)
  {
    hide Ready;
    P.ReadyIs(imp, pid);
  }

  lemma DownLeaves(s: R.Sys, t: R.Timing, up: bool, ok: bool)
    requires I.Inv(s, t) && OnlyDeletionsRefused(s.imp)
    ensures LeavesSync(s.imp, Down(s.imp, s.now, t.flushMs, up, ok), s.now)
    ensures Down(s.imp, s.now, t.flushMs, up, ok).running == s.imp.running
  {
    P.UnflushedEpochs(s, t);
    hide I.Inv, Down, Flushed;
    P.DownSettles(s.imp, s.now, t.flushMs, up, ok);
  }

  lemma LaunchLeaves(s: R.Sys, t: R.Timing, pid: nat, up: bool, ok: bool)
    requires I.Inv(s, t) && OnlyDeletionsRefused(s.imp)
    ensures LeavesSync(s.imp, Launched(s.imp, pid, s.now, t.flushMs, up, ok), s.now)
  {
    DownLeaves(s, t, up, ok);
    hide I.Inv, Down, Ready;
    var down := Down(s.imp, s.now, t.flushMs, up, ok);
    ReadyLeaves(down.(launch := down.launch + 1), pid, s.now);
  }

  lemma BraveLeaves(s: R.Sys, t: R.Timing, c: R.Step)
    requires I.Inv(s, t) && OnlyDeletionsRefused(s.imp) && R.Enabled(s, t, c) && R.BraveStep(c)
    ensures LeavesSync(s.imp, R.NextBrave(s, t, c).imp, s.now)
  {
    hide I.Inv, Down, Launched;
    match c
    case DownReport(up, ok) => DownLeaves(s, t, up, ok);
    case Launch(_, pid, up, ok) => LaunchLeaves(s, t, pid, up, ok);
    case LatePipe(pid, up, ok) => LaunchLeaves(s, t, pid, up, ok);
    case _ =>
  }

  lemma BrokerLeaves(s: R.Sys, t: R.Timing, c: R.Step)
    requires OnlyDeletionsRefused(s.imp) && R.Enabled(s, t, c) && (c.EnsureBrave? || c.SaveState?)
    ensures LeavesSync(s.imp, R.NextBroker(s, t, c).imp, s.now)
  {
    hide Ready, Save;
    match c
    case EnsureBrave(pid) => ReadyLeaves(s.imp, pid, s.now);
    case SaveState(up, ok) => var _ := P.SaveSettles(s.imp, s.now, t.flushMs, up, ok);
  }

  lemma StartedLeaves(imp: Importer, imp': Importer, sets: map<Key, Param>, deletes: map<Key, Tomb>, expired: set<Key>, now: nat)
    requires P.StartedWith(imp, imp', sets, deletes, expired)
    requires forall k :: k in expired && k in imp.snapshot ==> IsExpired(imp.snapshot[k], now)
    ensures LeavesSync(imp, imp', now)
  {
    hide TombParams;
  }

  /** A job that starts drops what expired from the snapshot. */
  lemma StartLeaves(imp: Importer, now: nat)
    requires imp.queue != [] && imp.running.None?
    ensures LeavesSync(imp, Capture(imp, now), now)
  {
    assert forall k :: k in ExpiredKeys(imp, now) ==> IsExpired(imp.snapshot[k], now);
    hide Capture, P.NothingToApply, P.StartedWith, P.Captures, ExpiredKeys;
    if imp.queue[0].ReadyJob? {
      P.SkipIs(imp, now);
      if !P.NothingToApply(imp) {
        P.CaptureReapplies(imp, now);
        StartedLeaves(imp, Capture(imp, now), imp.snapshot - ExpiredKeys(imp, now), imp.pending + LostTombs(imp),
          ExpiredKeys(imp, now), now);
      }
    } else {
      var sets, deletes := P.CaptureStarts(imp, now, "");
      StartedLeaves(imp, Capture(imp, now), sets, deletes, {}, now);
    }
  }

  lemma FinishLeaves(imp: Importer, now: nat)
    requires imp.running.Some? && OnlyDeletionsRefused(imp)
    ensures LeavesSync(imp, Finish(imp, now), now)
  {
    P.FinishesWith(imp, now);
    assert RefusedSets(imp.running.value) == {};
    hide Finish, Applied, RefusedSets;
  }

  lemma RunOnlyLeaves(imp: Importer, imp': Importer, now: nat)
    requires P.RunOnly(imp, imp') && OnlyDeletionsRefused(imp')
    ensures LeavesSync(imp, imp', now)
  {
  }

  lemma ConnectLeaves(imp: Importer, launch: nat, now: nat)
    requires OnlyDeletionsRefused(imp) && imp.running.Some?
    ensures LeavesSync(imp, Connect(imp, launch), now)
  {
    P.ConnectOnly(imp, launch);
    RunOnlyLeaves(imp, Connect(imp, launch), now);
    hide LeavesSync, P.RunOnly;
  }

  lemma SendLeaves(imp: Importer, chunk: set<Key>, now: nat)
    requires OnlyDeletionsRefused(imp) && imp.running.Some?
    ensures LeavesSync(imp, Sent(imp, chunk), now)
  {
    P.SentOnly(imp, chunk);
    RunOnlyLeaves(imp, Sent(imp, chunk), now);
    hide LeavesSync, P.RunOnly;
  }

  lemma RefusalLeaves(imp: Importer, k: Key, now: nat)
    requires OnlyDeletionsRefused(imp) && imp.running.Some? && k in imp.running.value.deletes
    ensures LeavesSync(imp, Refused(imp, k), now)
  {
    P.RefusedOnly(imp, k);
    RunOnlyLeaves(imp, Refused(imp, k), now);
    hide LeavesSync, P.RunOnly;
  }

  lemma FailureLeaves(imp: Importer, now: nat)
    requires imp.running.Some?
    ensures LeavesSync(imp, Fail(imp), now)
  {
    assert Fail(imp).running.None?;
    hide Fail, LeavesSync, P.RunOnly;
    P.FailedOnly(imp);
    RunOnlyLeaves(imp, Fail(imp), now);
  }

  lemma JobLeaves(s: R.Sys, t: R.Timing, c: R.Step)
    requires OnlyDeletionsRefused(s.imp) && R.Enabled(s, t, c) && !R.BraveStep(c) && !R.BridgeStep(c) && !R.BrokerStep(c)
    requires c.JobRefused? ==> c.key in s.imp.running.value.deletes
    ensures LeavesSync(s.imp, R.NextJob(s, t, c).imp, s.now)
  {
    hide Capture, Finish, LeavesSync, Connect, Sent, Refused, Fail;
    match c
    case JobStart => StartLeaves(s.imp, s.now);
    case JobFinish => FinishLeaves(s.imp, s.now);
    case JobConnect => ConnectLeaves(s.imp, s.brave.launch, s.now);
    case JobSend(chunk) => SendLeaves(s.imp, chunk, s.now);
    case JobRefused(k) => RefusalLeaves(s.imp, k, s.now);
    case JobFail => FailureLeaves(s.imp, s.now);
  }

  // ── the parts fit ──

  /** Whatever Brave's side does, the extension's side may count on it. */
  lemma SideLeaves(s: Sys, t: R.Timing, c: R.Step)
    requires Inv(s, t) && R.Enabled(s.brave, t, c) && Apart(s, c) && !c.PurgeRequest? && !c.BrokerRestart?
    ensures LeavesSync(s.brave.imp, R.Next(s.brave, t, c).imp, s.brave.now)
  {
    hide I.Inv, LeavesSync, R.NextBrave, R.NextBroker, R.NextJob;
    if R.BraveStep(c) {
      BraveLeaves(s.brave, t, c);
    } else if R.BrokerStep(c) {
      BrokerLeaves(s.brave, t, c);
    } else {
      JobLeaves(s.brave, t, c);
    }
  }

  lemma SnapshotsManaged(s: R.Sys, t: R.Timing)
    requires I.Inv(s, t)
    ensures s.imp.snapshot.Keys <= s.imp.managed.Keys
  {
    forall k | k in s.imp.snapshot ensures k in s.imp.managed {
      assert I.KeyInv(s, k);
    }
  }

  lemma SideFits(s: Sys, t: R.Timing, c: R.Step)
    requires Inv(s, t) && N.Timely(t) && R.Enabled(s.brave, t, c) && Apart(s, c)
    ensures var r := R.Next(s.brave, t, c);
      B.Elsewhere(s.chrome, r.imp) && Shared(Sys(s.chrome.(imp := r.imp), r)) && I.Inv(r, t)
  {
    N.InvKept(s.brave, t, c);
    SnapshotsManaged(R.Next(s.brave, t, c), t);
    hide I.Inv, R.NextBrave, R.NextJob, PurgeSet;
    ClockStays(s.brave, t, c);
    if !c.PurgeRequest? && !c.BrokerRestart? {
      SideLeaves(s, t, c);
      hide R.NextBroker;
    }
  }

  lemma ClockStays(s: R.Sys, t: R.Timing, c: R.Step)
    requires R.Enabled(s, t, c) && !c.Tick?
    ensures R.Next(s, t, c).now == s.now
  {
    hide Launched, Down, Full, Delta, Save, Purge, Ready, Loaded, Capture, Finish, Fail;
  }

  /** A message is handled: both parts do the same to the broker. */
  lemma FullFits(s: Sys, f: Key -> bool, t: R.Timing, up: bool)
    requires Shared(s) && Enabled(s, f, t, Arrives({}, up)) && s.chrome.chan[0].FullMsg?
    ensures Fits(s, f, t, Arrives({}, up)) && Shared(Next(s, f, t, Arrives({}, up)))
  {
    FullPossible(s, f, t, up);
    FullShared(s, f, t, up);
    hide *;
  }

  lemma FullShared(s: Sys, f: Key -> bool, t: R.Timing, up: bool)
    requires Shared(s) && Fits(s, f, t, Arrives({}, up)) && s.chrome.chan != [] && s.chrome.chan[0].FullMsg? && s.chrome.link.Some?
    ensures Shared(Next(s, f, t, Arrives({}, up)))
  {
    hide Enabled, Fits, Next, ChromePart, BravePart, Taken, Full, LeftOut, NotOvertaken, B.Unexpired, B.Received;
    var m, id := s.chrome.chan[0], s.chrome.link.value;
    FullNext(s, f, t, up);
    FullRuns(s.brave.imp, id, B.Unexpired(m.items, s.chrome.now), m.last, up);
    FullStages(s.brave.imp, id, B.Unexpired(m.items, s.chrome.now), m.last, up);
  }

  lemma FullPossible(s: Sys, f: Key -> bool, t: R.Timing, up: bool)
    requires Shared(s) && Enabled(s, f, t, Arrives({}, up)) && s.chrome.chan[0].FullMsg?
    ensures Fits(s, f, t, Arrives({}, up))
  {
    hide Full;
  }

  /** Both parts take the message as it is. */
  lemma FullNext(s: Sys, f: Key -> bool, t: R.Timing, up: bool)
    requires Shared(s) && Fits(s, f, t, Arrives({}, up)) && s.chrome.chan != [] && s.chrome.chan[0].FullMsg? && s.chrome.link.Some?
    ensures var m := s.chrome.chan[0];
      var imp' := Full(s.brave.imp, s.chrome.link.value, B.Unexpired(m.items, s.chrome.now), m.last, up);
      var s' := Next(s, f, t, Arrives({}, up));
      && s'.chrome.imp == imp' && s'.brave.imp == imp' && s'.chrome.now == s.chrome.now && s'.brave.now == s.brave.now
      && s'.chrome.link == s.chrome.link
  {
    hide Full, LeftOut, NotOvertaken, R.Instructed, B.Unexpired, R.UpFlag, R.Enabled, B.Enabled;
  }

  lemma FullRuns(imp: Importer, id: nat, items: map<Key, Param>, last: bool, up: bool)
    ensures Full(imp, id, items, last, up).running == imp.running
  {
    hide Full, LeftOut, NotOvertaken;
    P.FullOnly(imp, id, items, last, up, "");
  }

  lemma DeltaFits(s: Sys, f: Key -> bool, t: R.Timing, refused: set<Key>, up: bool)
    requires Shared(s) && Enabled(s, f, t, Arrives(refused, up)) && s.chrome.chan[0].DeltaMsg?
    ensures Fits(s, f, t, Arrives(refused, up)) && Shared(Next(s, f, t, Arrives(refused, up)))
  {
    hide Delta, Added, Removed, R.Instructed;
    var ch := B.Accepted(s.chrome.chan[0].changes, refused, s.chrome.now);
    assert R.LiveChanges(ch, s.chrome.now);
    hide B.Accepted, R.LiveChanges;
    P.DeltaOnly(s.brave.imp, ch, up, "");
    DeltaStages(s.brave.imp, ch, up);
  }

  /** The keys a delta refuses do not matter to a full sync. */
  lemma MessageFits(s: Sys, f: Key -> bool, t: R.Timing, refused: set<Key>, up: bool)
    requires Shared(s) && Enabled(s, f, t, Arrives(refused, up))
    ensures Fits(s, f, t, Arrives(refused, up)) && Shared(Next(s, f, t, Arrives(refused, up)))
  {
    if s.chrome.chan[0].DeltaMsg? {
      DeltaFits(s, f, t, refused, up);
    } else {
      FullFits(s, f, t, up);
    }
    hide Full, Delta, Shared, B.Unexpired, B.Accepted, R.Instructed;
  }

  lemma FullStages(imp: Importer, id: nat, items: map<Key, Param>, last: bool, up: bool)
    ensures Full(imp, id, items, last, up).bridge == imp.bridge
    ensures Full(imp, id, items, last, up).staging.Keys <= imp.staging.Keys + {id}
  {
    hide LeftOut, NotOvertaken, SyncDirties, DeletedIdentity, Identities;
  }

  lemma DeltaStages(imp: Importer, ch: map<Key, Change>, up: bool)
    ensures Delta(imp, ch, up).bridge == imp.bridge && Delta(imp, ch, up).staging.Keys == imp.staging.Keys
  {
    hide Added, Removed, Touch;
  }

  lemma ChromeFits(s: Sys, f: Key -> bool, t: R.Timing, b: B.Step)
    requires Shared(s) && Enabled(s, f, t, ChromeSide(b))
    ensures Fits(s, f, t, ChromeSide(b)) && Shared(Next(s, f, t, ChromeSide(b))) && Next(s, f, t, ChromeSide(b)).brave == s.brave
  {
    hide B.Received, B.Synced, B.Flatten, B.Splits, B.Fulls, B.Deltas;
  }

  lemma TickFits(s: Sys, f: Key -> bool, t: R.Timing, later: nat)
    requires Shared(s) && Enabled(s, f, t, Tick(later))
    ensures Fits(s, f, t, Tick(later)) && Shared(Next(s, f, t, Tick(later)))
  {
    hide R.CommitDue, R.ReportDue;
  }

  lemma ConnectFits(s: Sys, f: Key -> bool, t: R.Timing)
    requires Shared(s) && Enabled(s, f, t, Connects)
    ensures Fits(s, f, t, Connects) && Shared(Next(s, f, t, Connects))
  {
  }

  lemma DropFits(s: Sys, f: Key -> bool, t: R.Timing, portLost: bool)
    requires Shared(s) && Enabled(s, f, t, Drops(portLost))
    ensures Fits(s, f, t, Drops(portLost)) && Shared(Next(s, f, t, Drops(portLost)))
  {
  }

  lemma LinkFits(s: Sys, f: Key -> bool, t: R.Timing, a: Step)
    requires Shared(s) && Enabled(s, f, t, a) && (a.Tick? || a.Connects? || a.Drops?)
    ensures Fits(s, f, t, a) && Shared(Next(s, f, t, a))
  {
    hide Shared, Enabled, B.Enabled, R.Enabled, B.Next, R.Next;
    match a
    case Tick(later) => TickFits(s, f, t, later);
    case Connects => ConnectFits(s, f, t);
    case Drops(lost) => DropFits(s, f, t, lost);
  }

  /** Whenever a step is possible both parts are, and what they share stays shared. */
  lemma StepFits(s: Sys, f: Key -> bool, t: R.Timing, a: Step)
    requires Inv(s, t) && N.Timely(t) && Enabled(s, f, t, a)
    ensures Fits(s, f, t, a) && Inv(Next(s, f, t, a), t)
  {
    hide I.Inv, Shared, R.Next, B.Next, R.Enabled, N.Timely;
    match a
    case BraveSide(c) => SideIs(s, f, t, c);
    case Arrives(refused, up) =>
      MessageFits(s, f, t, refused, up);
      N.InvKept(s.brave, t, Taken(s, refused, up));
    case ChromeSide(b) => ChromeFits(s, f, t, b);
    case _ =>
      LinkFits(s, f, t, a);
      N.InvKept(s.brave, t, BravePart(s, f, t, a).value);
  }

  lemma SideIs(s: Sys, f: Key -> bool, t: R.Timing, c: R.Step)
    requires Inv(s, t) && N.Timely(t) && Enabled(s, f, t, BraveSide(c))
    ensures Fits(s, f, t, BraveSide(c)) && Inv(Next(s, f, t, BraveSide(c)), t)
  {
    hide I.Inv, Shared, R.Next, R.Enabled, N.Timely, B.Elsewhere;
    SideFits(s, t, c);
  }

  // ── runs ──

  ghost predicate Runs(s0: Sys, f: Key -> bool, t: R.Timing, steps: seq<Step>, s: Sys)
    decreases |steps|
  {
    if steps == [] then s == s0
    else Enabled(s0, f, t, steps[0]) && Fits(s0, f, t, steps[0]) && Runs(Next(s0, f, t, steps[0]), f, t, steps[1..], s)
  }

  /** A first broker, a Chrome with some cookies, and nothing connected. */
  ghost predicate Init(s: Sys) {
    C.Init(s.chrome) && N.Init(s.brave) && s.chrome.imp == s.brave.imp && s.chrome.now == s.brave.now
  }

  lemma {:induction false} PartsRun(s0: Sys, f: Key -> bool, t: R.Timing, steps: seq<Step>, s: Sys)
    returns (bridge: seq<B.Step>, brave: seq<R.Step>)
    requires Inv(s0, t) && N.Timely(t) && Runs(s0, f, t, steps, s)
    ensures C.Reaches(s0.chrome, f, bridge, s.chrome) && N.Reaches(s0.brave, t, brave, s.brave) && Inv(s, t)
    decreases |steps|
  {
    hide Inv, Enabled, B.Next, R.Next, B.Enabled, R.Enabled;
    if steps == [] {
      bridge, brave := [], [];
    } else {
      var a := steps[0];
      StepFits(s0, f, t, a);
      var one, other := ChromePart(s0, f, t, a), BravePart(s0, f, t, a);
      var rest, more := PartsRun(Next(s0, f, t, a), f, t, steps[1..], s);
      bridge := [one] + rest;
      assert bridge[1..] == rest;
      if other.Some? {
        brave := [other.value] + more;
        assert brave[1..] == more;
      } else {
        brave := more;
      }
    }
  }

  /** What Chrome has of k, if it syncs and has not expired. */
  function InChrome(s: Sys, f: Key -> bool, k: Key): Option<Param> {
    B.LiveOf(if f(k) then B.Get(s.chrome.jar, k) else None, s.chrome.now)
  }

  /** Brave has of k what Chrome has; a site in Brave may have removed it since. */
  ghost predicate Mirrors(s: Sys, f: Key -> bool, k: Key) {
    || R.LiveValue(s.brave.brave.memory, k, s.brave.now) == InChrome(s, f, k)
    || (k in s.brave.past.overwritten && !R.Live(s.brave.brave.memory, k, s.brave.now))
  }

  // ── a full sync that got through ──

  /** The end of a full sync is on its way. */
  ghost predicate Ending(chan: seq<B.Msg>) {
    exists m :: m in chan && m.FullMsg? && m.last
  }

  /** A full sync that covers this connection has settled k, or is going to. */
  ghost predicate Settling(s: Sys, k: Key) {
    && L.StagedSourced(s.brave.imp, k)
    && (C.Covered(s.chrome) ==> L.Landed(s.brave, k) || Ending(s.chrome.chan))
  }

  /** More of it gets on its way, or a sync that covers the connection starts to. */
  lemma ChromeSettles(s: Sys, f: Key -> bool, t: R.Timing, b: B.Step, k: Key)
    requires C.Shape(s.chrome, f) && Settling(s, k) && Fits(s, f, t, ChromeSide(b))
    ensures Settling(Next(s, f, t, ChromeSide(b)), k)
  {
    hide C.Halves, C.StagingOk, L.StagedSourced, L.Landed, B.Splits, B.Deltas, B.Flatten, B.Synced, B.Received;
    if b.ReadDone? {
      SomePosted(b.batches, B.Synced(f, s.chrome.reading[b.run].value));
      Posted(s.chrome.chan, b.batches, B.Deltas(b.deltas));
    }
    if b.Flushed? { StillEnding(s.chrome.chan, B.Deltas(b.deltas)); }
    hide Ending;
  }

  lemma SomePosted(batches: seq<B.Jar>, read: B.Jar)
    requires B.Splits(batches, read)
    ensures batches != []
  {
  }

  lemma Posted(chan: seq<B.Msg>, batches: seq<B.Jar>, deltas: seq<B.Msg>)
    ensures batches != [] ==> Ending(chan + B.Fulls(batches) + deltas)
  {
    if batches != [] {
      var m := B.Fulls(batches)[|batches| - 1];
      assert m in chan + B.Fulls(batches) + deltas;
    }
  }

  lemma StillEnding(chan: seq<B.Msg>, more: seq<B.Msg>)
    ensures Ending(chan) ==> Ending(chan + more)
  {
    if Ending(chan) {
      var m :| m in chan && m.FullMsg? && m.last;
      assert m in chan + more;
    }
  }

  lemma EndingHead(chan: seq<B.Msg>)
    requires chan != []
    ensures Ending(chan) ==> (chan[0].FullMsg? && chan[0].last) || Ending(chan[1..])
  {
    assert forall m :: m in chan ==> m == chan[0] || m in chan[1..];
  }

  lemma ArrivesIs(s: Sys, f: Key -> bool, t: R.Timing, refused: set<Key>, up: bool)
    requires Shared(s) && Fits(s, f, t, Arrives(refused, up)) && s.chrome.link.Some? && s.chrome.chan != []
    ensures var s' := Next(s, f, t, Arrives(refused, up));
      && R.Enabled(s.brave, t, Taken(s, refused, up)) && s'.brave == R.Next(s.brave, t, Taken(s, refused, up))
      && s'.chrome.chan == s.chrome.chan[1..] && (C.Covered(s'.chrome) <==> C.Covered(s.chrome))
  {
    hide R.Enabled, R.Next, B.Received, Taken, Shared;
  }

  /** A message is handled: if it ended a full sync, the sync has settled k. */
  lemma ArrivalSettles(s: Sys, f: Key -> bool, t: R.Timing, refused: set<Key>, up: bool, k: Key)
    requires Shared(s) && Settling(s, k) && Fits(s, f, t, Arrives(refused, up)) && s.chrome.link.Some? && s.chrome.chan != []
    ensures Settling(Next(s, f, t, Arrives(refused, up)), k)
  {
    hide Fits, Next, R.Enabled, R.Next, Shared, L.StagedSourced, L.Landed, B.Unexpired, B.Accepted, C.Covered, Ending;
    ArrivesIs(s, f, t, refused, up);
    EndingHead(s.chrome.chan);
    var a := Taken(s, refused, up);
    if a.FullBatch? { L.FullLands(s.brave, t, a, k); } else { L.DeltaLands(s.brave, t, a, k); }
  }

  /** Brave's side: nothing it does while the bridge is connected undoes what the sync settled. */
  lemma SideSettles(s: Sys, f: Key -> bool, t: R.Timing, c: R.Step, k: Key)
    requires Inv(s, t) && Settling(s, k) && Enabled(s, f, t, BraveSide(c)) && Fits(s, f, t, BraveSide(c))
    ensures Settling(Next(s, f, t, BraveSide(c)), k)
  {
    hide I.Inv, L.StagedSourced, L.Landed, R.NextBrave, R.NextBroker, R.NextJob, Ending;
    if c.PurgeRequest? || c.BrokerRestart? {
      L.StagedAtBroker(s.brave, t, c, k);
    } else {
      L.LandedStays(s.brave, t, c, k);
    }
  }

  lemma TickSettles(s: Sys, f: Key -> bool, t: R.Timing, later: nat, k: Key)
    requires Inv(s, t) && Settling(s, k) && Fits(s, f, t, Tick(later))
    ensures Settling(Next(s, f, t, Tick(later)), k)
  {
    hide I.Inv, L.StagedSourced, L.Landed, R.CommitDue, R.ReportDue, Ending, Shared;
    L.LandedStays(s.brave, t, R.Tick(later), k);
  }

  /** A new connection is not covered yet, and a lost one no longer. */
  lemma LinkSettles(s: Sys, f: Key -> bool, t: R.Timing, a: Step, k: Key)
    requires C.Shape(s.chrome, f) && Settling(s, k) && Enabled(s, f, t, a) && Fits(s, f, t, a) && (a.Connects? || a.Drops?)
    ensures Settling(Next(s, f, t, a), k)
  {
    hide L.StagedSourced, L.Landed, Ending, C.Halves, C.StagingOk;
    L.StagedAtBridge(s.brave, BravePart(s, f, t, a).value, k);
  }

  lemma SettlesOn(s: Sys, f: Key -> bool, t: R.Timing, a: Step, k: Key)
    requires Inv(s, t) && C.Shape(s.chrome, f) && Settling(s, k) && Enabled(s, f, t, a) && Fits(s, f, t, a)
    ensures Settling(Next(s, f, t, a), k)
  {
    hide I.Inv, C.Shape, Shared, Settling, Next, Fits;
    match a
    case Tick(later) => TickSettles(s, f, t, later, k);
    case ChromeSide(b) => ChromeSettles(s, f, t, b, k);
    case Arrives(refused, up) => ArrivalSettles(s, f, t, refused, up, k);
    case BraveSide(c) => SideSettles(s, f, t, c, k);
    case _ => LinkSettles(s, f, t, a, k);
  }

  lemma {:induction false} SettlesOverRun(s0: Sys, f: Key -> bool, t: R.Timing, steps: seq<Step>, s: Sys, k: Key)
    requires Inv(s0, t) && C.Inv(s0.chrome, f) && N.Timely(t) && Settling(s0, k) && Runs(s0, f, t, steps, s)
    ensures Settling(s, k)
    decreases |steps|
  {
    if steps != [] {
      var a := steps[0];
      hide Inv, Settling, Enabled, C.KeyInv, B.Next, R.Next, B.Enabled, R.Enabled, C.Shape;
      StepFits(s0, f, t, a);
      SettlesOn(s0, f, t, a, k);
      C.InvKept(s0.chrome, f, ChromePart(s0, f, t, a));
      SettlesOverRun(Next(s0, f, t, a), f, t, steps[1..], s, k);
    }
  }

  // ── what Brave has in the end ──

  lemma InitParts(s: Sys, f: Key -> bool, t: R.Timing, k: Key)
    requires Init(s)
    ensures Inv(s, t) && C.Inv(s.chrome, f) && Settling(s, k)
  {
    N.InitHolds(s.brave, t);
    C.InitHolds(s.chrome, f);
    hide I.Inv, C.Inv;
  }

  /** Everything got through: the latest full sync and the changes after it, and Brave's applies are done. */
  ghost predicate Through(s: Sys) {
    && C.Covered(s.chrome) && s.chrome.chan == [] && s.chrome.ext.buf == [] && s.chrome.events == []
    && T.Quiescent(s.brave)
  }

  /** Then no key has a deletion left over from a failed purge, or only an earlier broker's word. */
  lemma NothingElseLeft(s0: Sys, f: Key -> bool, t: R.Timing, steps: seq<Step>, s: Sys, k: Key)
    requires Init(s0) && N.Timely(t) && Runs(s0, f, t, steps, s) && Through(s)
    ensures k !in s.brave.imp.pending && !T.Inherited(s.brave, k)
  {
    hide Init, Inv, C.Inv, Runs, T.Quiescent, L.Landed, L.StagedSourced, T.Inherited;
    InitParts(s0, f, t, k);
    SettlesOverRun(s0, f, t, steps, s, k);
    L.LandedLeavesNothing(s.brave, k);
  }

  /** What the broker's snapshot has of k is what Chrome has. */
  lemma SnapshotMirrors(s0: Sys, f: Key -> bool, t: R.Timing, steps: seq<Step>, s: Sys, k: Key)
    requires Init(s0) && N.Timely(t) && Runs(s0, f, t, steps, s) && Through(s)
    ensures B.LiveOf(B.Get(s.brave.imp.snapshot, k), s.brave.now) == InChrome(s, f, k) && I.Inv(s.brave, t)
  {
    N.InitHolds(s0.brave, t);
    var bridge, brave := PartsRun(s0, f, t, steps, s);
    C.Converges(s0.chrome, f, bridge, s.chrome, k);
    hide I.Inv, Runs, Init, T.Quiescent;
  }

  /** From Chrome to Brave: after any interleaving of both sides, once the latest full sync got through, nothing is on its way
      and Brave's applies are done, Brave has exactly Chrome's unexpired cookies that sync, at their current values, on every
      key the broker did not give up. */
  lemma BraveMirrorsChrome(s0: Sys, f: Key -> bool, t: R.Timing, steps: seq<Step>, s: Sys, k: Key)
    requires Init(s0) && N.Timely(t) && Runs(s0, f, t, steps, s) && Through(s)
    requires k !in s.brave.past.stranded
    ensures Mirrors(s, f, k)
  {
    SnapshotMirrors(s0, f, t, steps, s, k);
    NothingElseLeft(s0, f, t, steps, s, k);
    assert I.KeyInv(s.brave, k);
    assert I.Final(s.brave) == s.brave.brave.memory;
    T.NothingLeft(s.brave, k);
    SnapshotIsStore(s.brave, k);
    hide I.Inv, I.KeyInv, Runs, Init, T.Quiescent;
  }

  /** The broker's snapshot and the simple store agree on a key it did not give up. */
  lemma SnapshotIsStore(s: R.Sys, k: Key)
    requires I.KeyInv(s, k) && k !in s.past.stranded
    ensures B.LiveOf(B.Get(s.imp.snapshot, k), s.now) == R.LiveValue(s.past.store, k, s.now)
  {
    assert I.StoreAgrees(s, k) && I.MapsAgree(s, k);
    hide I.KeyInv;
  }

  // ── the keys the broker gave up ──

  /** The broker's and Brave's part of a run. */
  ghost function BraveRun(s0: Sys, f: Key -> bool, t: R.Timing, steps: seq<Step>, s: Sys): seq<R.Step>
    requires Runs(s0, f, t, steps, s)
    decreases |steps|
  {
    if steps == [] then []
    else
      var c, rest := BravePart(s0, f, t, steps[0]), BraveRun(Next(s0, f, t, steps[0]), f, t, steps[1..], s);
      if c.Some? then [c.value] + rest else rest
  }

  /** It is a run from the one Brave to the other, whatever it had seen before. */
  lemma {:induction false} BraveRuns(s0: Sys, f: Key -> bool, t: R.Timing, steps: seq<Step>, s: Sys, l0: A.Ledger) returns (l: A.Ledger)
    requires Runs(s0, f, t, steps, s)
    ensures A.Accounts(s0.brave, l0, t, BraveRun(s0, f, t, steps, s), s.brave, l)
    decreases |steps|
  {
    l := l0;
    if steps != [] {
      hide Enabled, B.Next, R.Next, B.Enabled, R.Enabled, A.NextLedger;
      var s1, c := Next(s0, f, t, steps[0]), BravePart(s0, f, t, steps[0]);
      if c.Some? { l := A.NextLedger(s0.brave, t, c.value, l0); }
      var rest := BraveRun(s1, f, t, steps[1..], s);
      l := BraveRuns(s1, f, t, steps[1..], s, l);
      if c.Some? { assert ([c.value] + rest)[1..] == rest; }
    }
  }

  /** A key given up because its cookie expired has nothing live in the snapshot, while no cookie was replaced by one that
      expires earlier. */
  lemma LapsedSnapshot(s0: R.Sys, t: R.Timing, steps: seq<R.Step>, s: R.Sys, l: A.Ledger, k: Key)
    requires N.Init(s0) && N.Timely(t) && A.Accounts(s0, A.EMPTY, t, steps, s, l) && A.AllLengthen(s0, A.EMPTY, t, steps, k)
    requires k in s.past.stranded && k !in l.refused && k !in l.forgotten
    ensures B.LiveOf(B.Get(s.imp.snapshot, k), s.now) == None
  {
    N.InitHolds(s0, t);
    V.LivesOverRun(s0, A.EMPTY, t, steps, s, l, k);
    hide I.Inv, A.Accounts, A.AllLengthen, A.Bounded;
  }

  /** A caller's form, for every key: while no accepted cookie of k expires before the one it replaces, Brave has of k what Chrome
      has once everything got through, unless Brave refused k's deletion or a restart forgot k, and no message mentioned it since. */
  lemma MirrorsWhileLengthening(s0: Sys, f: Key -> bool, t: R.Timing, steps: seq<Step>, s: Sys, l: A.Ledger, k: Key)
    requires Init(s0) && N.Timely(t) && Runs(s0, f, t, steps, s) && Through(s)
    requires var run := BraveRun(s0, f, t, steps, s);
      A.Accounts(s0.brave, A.EMPTY, t, run, s.brave, l) && A.AllLengthen(s0.brave, A.EMPTY, t, run, k)
    requires k !in l.refused && k !in l.forgotten
    ensures Mirrors(s, f, k)
  {
    var run := BraveRun(s0, f, t, steps, s);
    hide Runs, BraveRun, T.Quiescent, A.Accounts, A.AllLengthen;
    if k in s.brave.past.stranded {
      SnapshotMirrors(s0, f, t, steps, s, k);
      V.NothingOlderLives(s0.brave, t, run, s.brave, l, k);
      LapsedSnapshot(s0.brave, t, run, s.brave, l, k);
    } else {
      hide Mirrors;
      BraveMirrorsChrome(s0, f, t, steps, s, k);
    }
  }
}
