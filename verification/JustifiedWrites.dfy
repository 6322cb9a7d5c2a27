// Every cookie the broker writes to Brave is justified by what the bridge sent
// (src/cookie-bridge/importer.js): on every run of syncs, crashes, relaunches, purges
// and broker restarts.
module JustifiedWrites {
  import opened Cookies
  import opened ImporterState
  import opened BraveReplication
  import opened ReplicationInvariant
  import opened ReplicationProofs
  import opened Policy

  /** A well-formed cookie of a message: its key, what Brave takes, its host, its top-level site's, and the owner's flag. */
  datatype Wire = Wire(key: Key, param: Param, host: Host, site: Option<Host>, flagged: bool)

  datatype WireChange = WireChange(removed: bool, cookie: Wire)

  datatype Owner = Owner(lists: Lists, allow: set<Host>)

  /** A message of the bridge as it arrives, a delta with the time of its arrival, or any other step. */
  datatype Input =
    | FullInput(bridge: nat, cookies: seq<Wire>, last: bool, up: bool)
    | DeltaInput(changes: seq<WireChange>, up: bool, at: nat)
    | Other(step: Step)

  ghost predicate AcceptsSet(o: Owner, w: Wire) {
    Admits(o.lists, w.host, w.site, w.flagged, o.allow)
  }

  ghost predicate AcceptsRemoval(o: Owner, managed: set<Key>, w: Wire) {
    w.key in managed || AdmitsRemoval(o.lists, w.host, w.site, w.flagged)
  }

  /** The accepted, unexpired cookies of a batch, the last one per key. */
  ghost function Items(o: Owner, cookies: seq<Wire>, now: nat): map<Key, Param> {
    if cookies == [] then map[]
    else
      var m, w := Items(o, cookies[..|cookies| - 1], now), cookies[|cookies| - 1];
      if AcceptsSet(o, w) && !IsExpired(w.param, now) then m[w.key := w.param] else m
  }

  /** The accepted changes of a delta, the last one per key; an expired cookie is a removal. */
  ghost function Changes(o: Owner, managed: set<Key>, changes: seq<WireChange>, now: nat): map<Key, Change> {
    if changes == [] then map[]
    else
      var m, ch := Changes(o, managed, changes[..|changes| - 1], now), changes[|changes| - 1];
      var w, removed := ch.cookie, ch.removed || IsExpired(ch.cookie.param, now);
      if (if removed then AcceptsRemoval(o, managed, w) else AcceptsSet(o, w)) then m[w.key := Change(removed, w.param)] else m
  }

  ghost function StepOf(o: Owner, s: Sys, a: Input): Step {
    match a
    case FullInput(id, cookies, last, up) => FullBatch(id, Items(o, cookies, s.now), last, up)
    case DeltaInput(changes, up, _) => DeltaMessage(Changes(o, s.imp.managed.Keys, changes, s.now), up)
    case Other(step) => step
  }

  ghost predicate Takes(o: Owner, s: Sys, t: Timing, a: Input) {
    && Enabled(s, t, StepOf(o, s, a))
    && (a.DeltaInput? ==> a.at == s.now)
    && (a.Other? ==> !a.step.FullBatch? && !a.step.DeltaMessage?)
  }

  /** The run of `inputs` from s0 ends in s. */
  ghost predicate RunsTo(o: Owner, s0: Sys, t: Timing, inputs: seq<Input>, s: Sys)
    decreases |inputs|
  {
    if inputs == [] then s == s0
    else Takes(o, s0, t, inputs[0]) && RunsTo(o, Next(s0, t, StepOf(o, s0, inputs[0])), t, inputs[1..], s)
  }

  // ── what justifies a write ──

  /** The message asks to set k to p, and the owner or the policy allows it on the cookie's host and site. */
  ghost predicate AsksSet(o: Owner, a: Input, k: Key, p: Param) {
    match a
    case FullInput(_, cookies, _, _) => exists w :: w in cookies && w.key == k && w.param == p && AcceptsSet(o, w)
    case DeltaInput(changes, _, _) => exists ch :: ch in changes && !ch.removed && ch.cookie.key == k && ch.cookie.param == p && AcceptsSet(o, ch.cookie)
    case Other(_) => false
  }

  /** The message says k is gone from Chrome, or sets it to a value that has expired by then; it is flagged or allowed without the always-allow
      list. */
  ghost predicate AsksRemoval(o: Owner, a: Input, k: Key) {
    && a.DeltaInput?
    && exists ch :: ch in a.changes && ch.cookie.key == k && (ch.removed || IsExpired(ch.cookie.param, a.at)) &&
                    AdmitsRemoval(o.lists, ch.cookie.host, ch.cookie.site, ch.cookie.flagged)
  }

  ghost predicate Asked(o: Owner, past: seq<Input>, k: Key, p: Param) {
    exists a :: a in past && AsksSet(o, a, k, p)
  }

  /** The bridge was allowed to put k. */
  ghost predicate Put(o: Owner, past: seq<Input>, k: Key) {
    exists p :: Asked(o, past, k, p)
  }

  ghost predicate MayGo(o: Owner, past: seq<Input>, k: Key) {
    Put(o, past, k) || exists a :: a in past && AsksRemoval(o, a, k)
  }

  /** A deletion: the cookie already expired. */
  predicate Expired(p: Param) {
    p.expires == Some(1.0)
  }

  ghost predicate Justified(o: Owner, past: seq<Input>, k: Key, p: Param) {
    Asked(o, past, k, p) || (Expired(p) && MayGo(o, past, k))
  }

  // ── what every step keeps ──

  ghost predicate MapsOk(o: Owner, past: seq<Input>, imp: Importer, k: Key) {
    && (k in imp.snapshot ==> Asked(o, past, k, imp.snapshot[k]))
    && (k in imp.managed ==> Put(o, past, k))
    && (k in imp.seen ==> MayGo(o, past, k))
    && (k in imp.pending ==> MayGo(o, past, k) && Expired(imp.pending[k].param))
    && (k in imp.unflushed ==> MayGo(o, past, k) && Expired(imp.unflushed[k].tomb.param))
  }

  ghost predicate FileOk(o: Owner, past: seq<Input>, imp: Importer, k: Key) {
    imp.file.Some? ==> (k in imp.file.value.managed ==> Put(o, past, k)) && (k in imp.file.value.pending ==> MayGo(o, past, k))
  }

  ghost predicate TombsOk(o: Owner, past: seq<Input>, deletes: map<Key, Tomb>, k: Key) {
    k in deletes ==> MayGo(o, past, k) && Expired(deletes[k].param)
  }

  ghost predicate RunOk(o: Owner, past: seq<Input>, imp: Importer, k: Key) {
    imp.running.Some? ==>
      var r := imp.running.value;
      TombsOk(o, past, r.deletes, k) && (k in r.todo ==> Justified(o, past, k, r.todo[k]))
  }

  ghost predicate ReplacedOk(o: Owner, past: seq<Input>, imp: Importer, k: Key) {
    forall i :: 0 <= i < |imp.replaced| ==> TombsOk(o, past, imp.replaced[i], k)
  }

  ghost predicate KeyOk(o: Owner, past: seq<Input>, imp: Importer, k: Key) {
    MapsOk(o, past, imp, k) && FileOk(o, past, imp, k) && RunOk(o, past, imp, k) && ReplacedOk(o, past, imp, k)
  }

  lemma MoreAsked(o: Owner, past: seq<Input>, a: Input, imp: Importer, k: Key)
    requires KeyOk(o, past, imp, k)
    ensures KeyOk(o, past + [a], imp, k)
  {
    hide AsksSet, AsksRemoval;
    assert forall p :: Asked(o, past, k, p) ==> Asked(o, past + [a], k, p);
    assert MayGo(o, past, k) ==> MayGo(o, past + [a], k);
  }

  /** An accepted cookie of a batch was asked for by it. */
  lemma {:induction false} ItemsAsked(o: Owner, id: nat, cookies: seq<Wire>, last: bool, up: bool, now: nat, k: Key)
    requires k in Items(o, cookies, now)
    ensures AsksSet(o, FullInput(id, cookies, last, up), k, Items(o, cookies, now)[k])
  {
    var n := |cookies| - 1;
    var w := cookies[n];
    if !(AcceptsSet(o, w) && !IsExpired(w.param, now) && w.key == k) {
      ItemsAsked(o, id, cookies[..n], last, up, now, k);
    }
  }

  lemma {:induction false} ChangesAsked(o: Owner, managed: set<Key>, changes: seq<WireChange>, up: bool, now: nat, k: Key)
    requires k in Changes(o, managed, changes, now)
    ensures
      var c := Changes(o, managed, changes, now)[k];
      if c.removed then k in managed || AsksRemoval(o, DeltaInput(changes, up, now), k) else AsksSet(o, DeltaInput(changes,
          up, now), k, c.param)
  {
    hide AdmitsRemoval, Admits;
    var n := |changes| - 1;
    var ch := changes[n];
    var w, removed := ch.cookie, ch.removed || IsExpired(ch.cookie.param, now);
    var taken := if removed then AcceptsRemoval(o, managed, w) else AcceptsSet(o, w);
    if !taken || w.key != k {
      assert k in Changes(o, managed, changes[..n], now);
      ChangesAsked(o, managed, changes[..n], up, now, k);
    }
  }

  // ── the steps ──

  lemma HandledOk(o: Owner, past: seq<Input>, imp: Importer, imp': Importer, sets: map<Key, Param>, gone: set<Key>, k: Key)
    requires KeyOk(o, past, imp, k) && HandledAt(imp, imp', sets, gone, k) && OnlyHandled(imp, imp', sets) &&
        imp'.file == imp.file
    requires k in sets ==> Asked(o, past, k, sets[k])
    requires k in gone ==> MayGo(o, past, k)
    ensures KeyOk(o, past, imp', k)
  {
    hide Asked;
  }

  lemma FullOk(o: Owner, past: seq<Input>, s: Sys, a: Input, k: Key)
    requires a.FullInput? && a in past && KeyOk(o, past, s.imp, k)
    ensures KeyOk(o, past, Full(s.imp, a.bridge, Items(o, a.cookies, s.now), a.last, a.up), k)
  {
    var imp, items := s.imp, Items(o, a.cookies, s.now);
    var sets, gone := NotOvertaken(imp, a.bridge, items), if a.last then LeftOut(imp, a.bridge, items) else {};
    var imp' := Full(imp, a.bridge, items, a.last, a.up);
    assert k in gone ==> k in imp.managed;
    assert k in sets ==> k in items && sets[k] == items[k];
    assert imp'.file == imp.file;
    FullHandles(imp, a.bridge, items, a.last, a.up, k);
    FullOnly(imp, a.bridge, items, a.last, a.up, k);
    if k in items { ItemsAsked(o, a.bridge, a.cookies, a.last, a.up, s.now, k); }
    hide Full, LeftOut, NotOvertaken, AsksSet, AsksRemoval, HandledAt, Items;
    HandledOk(o, past, imp, imp', sets, gone, k);
  }

  lemma DeltaOk(o: Owner, past: seq<Input>, s: Sys, a: Input, k: Key)
    requires a.DeltaInput? && a.at == s.now && a in past && KeyOk(o, past, s.imp, k)
    ensures KeyOk(o, past, Delta(s.imp, Changes(o, s.imp.managed.Keys, a.changes, s.now), a.up), k)
  {
    var imp, ch := s.imp, Changes(o, s.imp.managed.Keys, a.changes, s.now);
    var imp' := Delta(imp, ch, a.up);
    assert imp'.file == imp.file;
    DeltaHandles(imp, ch, a.up, k);
    DeltaOnly(imp, ch, a.up, k);
    assert k in Added(ch) ==> k in ch && !ch[k].removed && Added(ch)[k] == ch[k].param;
    assert k in Removed(ch) ==> k in ch && ch[k].removed;
    if k in ch { ChangesAsked(o, imp.managed.Keys, a.changes, a.up, s.now, k); }
    hide Delta, Added, Removed, AsksSet, AsksRemoval, HandledAt, Changes;
    HandledOk(o, past, imp, imp', Added(ch), Removed(ch).Keys, k);
  }

  /** Nothing of k is new. */
  ghost predicate NoNews(imp: Importer, imp': Importer, k: Key) {
    && imp'.snapshot == imp.snapshot && imp'.managed == imp.managed && imp'.seen == imp.seen && imp'.pending == imp.pending
    && (k in imp'.unflushed ==> k in imp.unflushed && imp'.unflushed[k] == imp.unflushed[k])
    && imp'.running == imp.running
    && imp'.replaced == imp.replaced
  }

  lemma NoNewsOk(o: Owner, past: seq<Input>, imp: Importer, imp': Importer, k: Key)
    requires KeyOk(o, past, imp, k) && NoNews(imp, imp', k) && (imp'.file == imp.file || FileKept(imp, imp'))
    ensures KeyOk(o, past, imp', k)
  {
    hide Asked;
    assert MapsOk(o, past, imp', k) && RunOk(o, past, imp', k) && ReplacedOk(o, past, imp', k);
  }

  lemma SaveNoNews(imp: Importer, now: nat, flushMs: nat, up: bool, ok: bool, k: Key)
    ensures NoNews(imp, Save(imp, now, flushMs, up, ok), k) && FileKept(imp, Save(imp, now, flushMs, up, ok))
  {
    SaveKeepsFile(imp, now, flushMs, up, ok);
    hide Flushed, Content, FileKept;
  }

  lemma DownNoNews(imp: Importer, now: nat, flushMs: nat, up: bool, ok: bool, k: Key)
    ensures NoNews(imp, Down(imp, now, flushMs, up, ok), k) && FileKept(imp, Down(imp, now, flushMs, up, ok))
  {
    hide Flushed, Content, Save, FileKept;
    DownKeepsFile(imp, now, flushMs, up, ok);
    var s1 := Settle(imp, now, flushMs);
    SaveNoNews(s1.(epoch := s1.epoch + 1), now, flushMs, up, ok, k);
  }

  lemma BraveOk(o: Owner, past: seq<Input>, s: Sys, t: Timing, a: Step, k: Key)
    requires Enabled(s, t, a) && BraveStep(a) && KeyOk(o, past, s.imp, k)
    ensures KeyOk(o, past, NextBrave(s, t, a).imp, k)
  {
    hide KeyOk, NoNews, FileKept, Enabled, Save, Down, Started, Committed, MarkUncommitted, Dead;
    match a
    case DownReport(up, ok) =>
      DownNoNews(s.imp, s.now, t.flushMs, up, ok, k);
      NoNewsOk(o, past, s.imp, Down(s.imp, s.now, t.flushMs, up, ok), k);
    case Launch(_, pid, up, ok) => LaunchedOk(o, past, s.imp, pid, s.now, t.flushMs, up, ok, k);
    case LatePipe(pid, up, ok) => LaunchedOk(o, past, s.imp, pid, s.now, t.flushMs, up, ok, k);
    case _ =>
  }

  lemma ReadyNoNews(imp: Importer, pid: nat, k: Key)
    ensures NoNews(imp, Ready(imp, pid), k) && Ready(imp, pid).file == imp.file
  {
    hide Ready;
    ReadyIs(imp, pid);
  }

  lemma LaunchedOk(o: Owner, past: seq<Input>, imp: Importer, pid: nat, now: nat, flushMs: nat, up: bool, ok: bool, k: Key)
    requires KeyOk(o, past, imp, k)
    ensures KeyOk(o, past, Launched(imp, pid, now, flushMs, up, ok), k)
  {
    hide Down, Ready, KeyOk, FileKept;
    var s1 := Down(imp, now, flushMs, up, ok);
    var s2 := s1.(launch := s1.launch + 1);
    DownNoNews(imp, now, flushMs, up, ok, k);
    NoNewsOk(o, past, imp, s1, k);
    assert NoNews(s1, s2, k);
    NoNewsOk(o, past, s1, s2, k);
    ReadyNoNews(s2, pid, k);
    NoNewsOk(o, past, s2, Ready(s2, pid), k);
  }

  lemma PurgeOk(o: Owner, past: seq<Input>, imp: Importer, k: Key)
    requires KeyOk(o, past, imp, k)
    ensures KeyOk(o, past, Purge(imp), k)
  {
    hide Asked;
    assert TombsOk(o, past, PurgeSet(imp), k);
    hide PurgeSet;
  }

  lemma LoadedOk(o: Owner, past: seq<Input>, imp: Importer, k: Key)
    requires FileOk(o, past, imp, k)
    ensures KeyOk(o, past, Loaded(imp.file), k)
  {
    hide Asked;
  }

  lemma BrokerOk(o: Owner, past: seq<Input>, s: Sys, t: Timing, a: Step, k: Key)
    requires Enabled(s, t, a) && BrokerStep(a) && KeyOk(o, past, s.imp, k)
    ensures KeyOk(o, past, NextBroker(s, t, a).imp, k)
  {
    match a
    case EnsureBrave(pid) =>
      ReadyNoNews(s.imp, pid, k);
      NoNewsOk(o, past, s.imp, Ready(s.imp, pid), k);
    case PurgeRequest => PurgeOk(o, past, s.imp, k);
    case SaveState(up, ok) =>
      SaveNoNews(s.imp, s.now, t.flushMs, up, ok, k);
      NoNewsOk(o, past, s.imp, Save(s.imp, s.now, t.flushMs, up, ok), k);
    case BrokerRestart => LoadedOk(o, past, s.imp, k);
  }

  lemma CaptureOk(o: Owner, past: seq<Input>, imp: Importer, now: nat, k: Key)
    requires KeyOk(o, past, imp, k) && imp.queue != [] && imp.running.None?
    ensures KeyOk(o, past, Capture(imp, now), k)
  {
    hide StartedWith, Asked, MayGo, Capture, NothingToApply;
    var imp' := Capture(imp, now);
    if imp.queue[0].ReadyJob? { SkipIs(imp, now); }
    if imp.queue[0].ReadyJob? && NothingToApply(imp) {
      SkippedOk(o, past, imp, k);
    } else if imp.queue[0].ReadyJob? {
      CaptureReapplies(imp, now);
      var sets, deletes := imp.snapshot - ExpiredKeys(imp, now), imp.pending + LostTombs(imp);
      assert k in sets ==> sets[k] == imp.snapshot[k];
      StartedOk(o, past, imp, imp', sets, deletes, ExpiredKeys(imp, now), k);
    } else {
      var sets, deletes := CaptureStarts(imp, now, k);
      assert imp.queue[0] in imp.queue;
      StartedOk(o, past, imp, imp', sets, deletes, {}, k);
    }
  }

  lemma SkippedOk(o: Owner, past: seq<Input>, imp: Importer, k: Key)
    requires KeyOk(o, past, imp, k) && imp.queue != []
    ensures KeyOk(o, past, imp.(queue := imp.queue[1..]), k)
  {
    hide KeyOk, FileKept, NoNews;
    PopNoNews(imp, k);
    NoNewsOk(o, past, imp, imp.(queue := imp.queue[1..]), k);
  }

  lemma PopNoNews(imp: Importer, k: Key)
    requires imp.queue != []
    ensures NoNews(imp, imp.(queue := imp.queue[1..]), k)
  {
    assert forall j :: j in imp.queue[1..] ==> j in imp.queue;
  }

  lemma StartedOk(o: Owner, past: seq<Input>, imp: Importer, imp': Importer, sets: map<Key, Param>, deletes: map<Key,
      Tomb>, expired: set<Key>, k: Key)
    requires KeyOk(o, past, imp, k) && StartedWith(imp, imp', sets, deletes, expired)
    requires k in sets ==> Asked(o, past, k, sets[k])
    requires TombsOk(o, past, deletes, k)
    ensures KeyOk(o, past, imp', k)
  {
    hide Asked, MayGo;
    assert forall j :: j in imp'.queue ==> j in imp.queue;
  }

  lemma FinishOk(o: Owner, past: seq<Input>, imp: Importer, now: nat, k: Key)
    requires KeyOk(o, past, imp, k) && imp.running.Some?
    ensures KeyOk(o, past, Finish(imp, now), k)
  {
    hide Asked, MayGo;
    var r := imp.running.value;
    FinishesWith(imp, now);
    var dropped := if r.job.PurgeJob? then {} else RefusedSets(r);
    FinishAt(imp, Finish(imp, now), now, Applied(imp, r), dropped, k);
    assert Finish(imp, now).file.None? || Finish(imp, now).file == imp.file;
    hide Finish, FinishedWith, Applied, Current;
  }

  lemma RunOnlyOk(o: Owner, past: seq<Input>, imp: Importer, imp': Importer, k: Key)
    requires KeyOk(o, past, imp, k) && RunOnly(imp, imp')
    ensures KeyOk(o, past, imp', k)
  {
    hide Asked, MayGo;
  }

  lemma JobOk(o: Owner, past: seq<Input>, s: Sys, t: Timing, a: Step, k: Key)
    requires Enabled(s, t, a) && !BraveStep(a) && !BridgeStep(a) && !BrokerStep(a) && KeyOk(o, past, s.imp, k)
    ensures KeyOk(o, past, NextJob(s, t, a).imp, k)
  {
    hide KeyOk, Capture, Finish, RunOnly;
    match a
    case JobStart => CaptureOk(o, past, s.imp, s.now, k);
    case JobFinish => FinishOk(o, past, s.imp, s.now, k);
    case JobConnect =>
      ConnectOnly(s.imp, s.brave.launch);
      RunOnlyOk(o, past, s.imp, Connect(s.imp, s.brave.launch), k);
    case JobSend(chunk) =>
      SentOnly(s.imp, chunk);
      RunOnlyOk(o, past, s.imp, Sent(s.imp, chunk), k);
    case JobRefused(x) =>
      RefusedOnly(s.imp, x);
      RunOnlyOk(o, past, s.imp, Refused(s.imp, x), k);
    case JobFail =>
      FailedOnly(s.imp);
      RunOnlyOk(o, past, s.imp, Fail(s.imp), k);
  }

  lemma StepOk(o: Owner, past: seq<Input>, s: Sys, t: Timing, a: Input, k: Key)
    requires Takes(o, s, t, a) && KeyOk(o, past, s.imp, k)
    ensures KeyOk(o, past + [a], Next(s, t, StepOf(o, s, a)).imp, k)
  {
    MoreAsked(o, past, a, s.imp, k);
    var step := StepOf(o, s, a);
    if a.FullInput? {
      FullOk(o, past + [a], s, a, k);
    } else if a.DeltaInput? {
      DeltaOk(o, past + [a], s, a, k);
    } else if BraveStep(step) {
      BraveOk(o, past + [a], s, t, step, k);
    } else if BrokerStep(step) {
      BrokerOk(o, past + [a], s, t, step, k);
    } else if BridgeStep(step) {
      assert NoNews(s.imp, NextBridge(s, step).imp, k);
      NoNewsOk(o, past + [a], s.imp, NextBridge(s, step).imp, k);
    } else {
      JobOk(o, past + [a], s, t, step, k);
    }
  }

  lemma {:induction false} RunIsOk(o: Owner, past: seq<Input>, s0: Sys, t: Timing, inputs: seq<Input>, s: Sys, k: Key)
    requires KeyOk(o, past, s0.imp, k) && RunsTo(o, s0, t, inputs, s)
    ensures KeyOk(o, past + inputs, s.imp, k)
    decreases |inputs|
  {
    hide KeyOk, StepOf, Next;
    if inputs == [] {
      assert past + inputs == past;
    } else {
      StepOk(o, past, s0, t, inputs[0], k);
      RunIsOk(o, past + [inputs[0]], Next(s0, t, StepOf(o, s0, inputs[0])), t, inputs[1..], s, k);
      assert past + [inputs[0]] + inputs[1..] == past + inputs;
    }
  }

  /** Every cookie on its way to Brave is one a message asked to set, allowed by the policy on its host and site or flagged;
      or it is a deletion, and a message was allowed to put that key, or said it is gone from Chrome, flagged or
      allowed without the always-allow list. */
  lemma WritesAreJustified(o: Owner, s0: Sys, t: Timing, inputs: seq<Input>, s: Sys, chunk: set<Key>, k: Key)
    requires s0.imp == Loaded(None) && RunsTo(o, s0, t, inputs, s)
    requires Enabled(s, t, JobSend(chunk)) && k in chunk
    ensures Justified(o, inputs, k, s.imp.running.value.todo[k])
  {
    hide MapsOk, FileOk, ReplacedOk, Justified, RunsTo;
    NothingYet(o, s0.imp, k);
    RunIsOk(o, [], s0, t, inputs, s, k);
    assert [] + inputs == inputs;
  }

  lemma NothingYet(o: Owner, imp: Importer, k: Key)
    requires imp == Loaded(None)
    ensures KeyOk(o, [], imp, k)
  {
  }

  /** "A cookie the bridge had put there" means one it manages: a cookie on a held host that only the always-allow list
      admits, synced and removed while Brave is down, is deleted from the next Brave, though no Brave ever got it. ListRemovals
      has the exact condition over all runs. */
  lemma ListReachesUnsentCookie(o: Owner, w: Wire, now: nat)
    requires !w.flagged && w.site.None? && Classify(o.lists, w.host, {}) == Hold && Covers(o.allow, w.host) &&
        !IsExpired(w.param, now)
    ensures
      var imp1 := Full(Loaded(None), 1, Items(o, [w], now), true, false);
      var imp2 := Delta(imp1, Changes(o, imp1.managed.Keys, [WireChange(true, w)], now), false);
      !AdmitsRemoval(o.lists, w.host, w.site, w.flagged) && w.key in imp2.pending && imp2.queue == [] && imp2.running.None?
  {
    hide Classify, Covers;
    ListOnlyLiftsHolds(o.lists, w.host, o.allow);
    assert Items(o, [], now) == map[] && [w][..0] == [];
    var imp1 := Full(Loaded(None), 1, Items(o, [w], now), true, false);
    FullHandles(Loaded(None), 1, Items(o, [w], now), true, false, w.key);
    assert w.key in imp1.managed && imp1.queue == [] && imp1.running.None?;
    hide Full;
    var gone := [WireChange(true, w)];
    var ch := Changes(o, imp1.managed.Keys, gone, now);
    assert gone[..0] == [] && ch == Changes(o, imp1.managed.Keys, [], now)[w.key := Change(true, w.param)];
    DeltaHandles(imp1, ch, false, w.key);
  }
}
