// What a key's values and deletions are made of: nothing but the cookies that messages gave
// under that key. So a call never names another cookie than its key's, and a removal deletes
// the cookie that was synced (src/cookie-bridge/importer.js _setSynced, _forget, purge).
module KeyedParams {
  import opened Cookies
  import opened ImporterState
  import opened BraveReplication
  import opened ReplicationInvariant
  import opened ReplicationProofs
  import opened ReplicationRuns
  import opened RemovedForGood
  import opened StateFile
  import CookieKeys

  /** What the messages may say: whether a cookie with this identity may come under the key. */
  type Vouch = (Key, Param) -> bool

  /** The jar has k only with a vouched identity. */
  ghost predicate JarOk(j: Jar, v: Vouch, k: Key) {
    k in j ==> v(k, IdentityOf(j[k]))
  }

  /** A deletion: the expired twin of a vouched identity. */
  ghost predicate TombOk(t: Tomb, v: Vouch, k: Key) {
    v(k, IdentityOf(t.param)) && t.param == ExpireParam(IdentityOf(t.param))
  }

  ghost predicate TombsOk(m: map<Key, Tomb>, v: Vouch, k: Key) {
    k in m ==> TombOk(m[k], v, k)
  }

  /** Identities, as the broker keeps them and its file. */
  ghost predicate IdsOk(m: map<Key, Param>, v: Vouch, k: Key) {
    k in m ==> v(k, m[k]) && m[k] == IdentityOf(m[k])
  }

  ghost predicate MapsOk(imp: Importer, v: Vouch, k: Key) {
    && JarOk(imp.snapshot, v, k) && IdsOk(imp.managed, v, k) && IdsOk(imp.seen, v, k) && TombsOk(imp.pending, v, k)
    && (k in imp.unflushed ==> TombOk(imp.unflushed[k].tomb, v, k))
    && (k in imp.snapshot ==> k in imp.managed && imp.managed[k] == IdentityOf(imp.snapshot[k]))
  }

  ghost predicate FileOk(imp: Importer, v: Vouch, k: Key) {
    imp.file.Some? ==> IdsOk(imp.file.value.managed, v, k) && IdsOk(imp.file.value.pending, v, k)
  }

  ghost predicate RunOk(imp: Importer, v: Vouch, k: Key) {
    && (imp.running.Some? ==> JarOk(imp.running.value.todo, v, k) && TombsOk(imp.running.value.deletes, v, k))
    && (forall i :: 0 <= i < |imp.replaced| ==> TombsOk(imp.replaced[i], v, k))
  }

  ghost predicate BrokerOk(imp: Importer, v: Vouch, k: Key) {
    MapsOk(imp, v, k) && FileOk(imp, v, k) && RunOk(imp, v, k)
  }

  ghost predicate BraveOk(b: Brave, v: Vouch, k: Key) {
    JarOk(b.memory, v, k) && JarOk(b.disk, v, k) && forall j :: j in b.inbox ==> JarOk(j, v, k)
  }

  ghost predicate AllOk(s: Sys, v: Vouch, k: Key) {
    BrokerOk(s.imp, v, k) && BraveOk(s.brave, v, k)
  }

  /** The message gives k only a cookie with a vouched identity. */
  ghost predicate Says(a: Step, v: Vouch, k: Key) {
    match a
    case FullBatch(_, items, _, _) => k in items ==> v(k, IdentityOf(items[k]))
    case DeltaMessage(ch, _) => k in ch ==> v(k, IdentityOf(ch[k].param))
    case _ => true
  }

  // ── messages ──

  lemma SyncOk(imp: Importer, m: map<Key, Param>, v: Vouch, k: Key)
    requires BrokerOk(imp, v, k) && (k in m ==> v(k, IdentityOf(m[k])))
    ensures BrokerOk(SetSynced(imp, m), v, k)
  {
  }

  lemma ForgetAt(imp: Importer, ks: set<Key>, given: map<Key, Param>, k: Key)
    requires forall x :: x in ks ==> x in imp.managed || x in imp.snapshot || x in given
    ensures var imp' := Forget(imp, ks, given);
      && imp'.seen == imp.seen && imp'.file == imp.file && imp'.running == imp.running && imp'.replaced == imp.replaced
      && (k in ks ==> k !in imp'.snapshot && k !in imp'.managed && k !in imp'.unflushed)
      && (k in ks ==> k in imp'.pending && imp'.pending[k].param == ExpireParam(DeletedIdentity(imp, k, given)))
      && (k !in ks ==> SameAt(imp, imp', k))
  {
    hide DeletedIdentity;
  }

  /** The maps that a removal changes agree on k. */
  ghost predicate SameAt(imp: Importer, imp': Importer, k: Key) {
    && (k in imp'.snapshot <==> k in imp.snapshot) && (k in imp.snapshot ==> imp'.snapshot[k] == imp.snapshot[k])
    && (k in imp'.managed <==> k in imp.managed) && (k in imp.managed ==> imp'.managed[k] == imp.managed[k])
    && (k in imp'.pending <==> k in imp.pending) && (k in imp.pending ==> imp'.pending[k] == imp.pending[k])
    && (k in imp'.unflushed <==> k in imp.unflushed) && (k in imp.unflushed ==> imp'.unflushed[k] == imp.unflushed[k])
  }

  lemma ForgetOk(imp: Importer, ks: set<Key>, given: map<Key, Param>, v: Vouch, k: Key)
    requires forall x :: x in ks ==> x in imp.managed || x in imp.snapshot || x in given
    requires BrokerOk(imp, v, k) && (k in given ==> v(k, IdentityOf(given[k])))
    ensures BrokerOk(Forget(imp, ks, given), v, k)
  {
    hide Forget;
    ForgetAt(imp, ks, given, k);
  }

  ghost predicate SameParams(imp: Importer, imp': Importer) {
    && imp'.snapshot == imp.snapshot && imp'.managed == imp.managed && imp'.seen == imp.seen && imp'.pending == imp.pending
    && imp'.unflushed == imp.unflushed && imp'.file == imp.file && imp'.running == imp.running && imp'.replaced == imp.replaced
  }

  lemma SameOk(imp: Importer, imp': Importer, v: Vouch, k: Key)
    requires BrokerOk(imp, v, k) && SameParams(imp, imp')
    ensures BrokerOk(imp', v, k)
  {
  }

  lemma FullOk(imp: Importer, id: nat, items: map<Key, Param>, last: bool, up: bool, v: Vouch, k: Key)
    requires BrokerOk(imp, v, k) && (k in items ==> v(k, IdentityOf(items[k])))
    ensures BrokerOk(Full(imp, id, items, last, up), v, k)
  {
    var sets := NotOvertaken(imp, id, items);
    assert k in sets ==> sets[k] == items[k];
    hide SetSynced, LeftOut, NotOvertaken, BrokerOk, Forget, StagingOf, SyncDirties;
    SyncOk(imp, sets, v, k);
    var s0 := Batched(imp, id, items, last);
    SameOk(SetSynced(imp, sets), s0, v, k);
    LeftOutManaged(imp, id, items, last);
    var s1 := if last then Forget(s0, LeftOut(imp, id, items), map[]) else s0;
    if last { ForgetOk(s0, LeftOut(imp, id, items), map[], v, k); }
    assert Full(imp, id, items, last, up) == ApplyNow(s1, sets.Keys, up);
    hide Full;
    SameOk(s1, ApplyNow(s1, sets.Keys, up), v, k);
  }

  lemma DeltaOk(imp: Importer, ch: map<Key, Change>, up: bool, v: Vouch, k: Key)
    requires BrokerOk(imp, v, k) && (k in ch ==> v(k, IdentityOf(ch[k].param)))
    ensures BrokerOk(Delta(imp, ch, up), v, k)
  {
    DeltaIs(imp, ch, up);
    assert k in Added(ch) ==> k in ch && Added(ch)[k] == ch[k].param;
    assert k in Removed(ch) ==> k in ch && Removed(ch)[k] == ch[k].param;
    hide BrokerOk, Touched, Added, Removed, SetSynced, Forget, ApplyNow, Delta;
    var s1 := Touched(imp, ch);
    TouchedSame(imp, ch);
    SameOk(imp, s1, v, k);
    SyncOk(s1, Added(ch), v, k);
    var s2 := SetSynced(s1, Added(ch));
    ForgetOk(s2, Removed(ch).Keys, Removed(ch), v, k);
    var s3 := Forget(s2, Removed(ch).Keys, Removed(ch));
    AppliedSame(s3, Added(ch).Keys, up);
    SameOk(s3, ApplyNow(s3, Added(ch).Keys, up), v, k);
  }

  lemma TouchedSame(imp: Importer, ch: map<Key, Change>)
    ensures SameParams(imp, Touched(imp, ch))
  {
    hide Touch;
  }

  lemma AppliedSame(imp: Importer, keys: set<Key>, up: bool)
    ensures SameParams(imp, ApplyNow(imp, keys, up))
  {
  }

  // ── the file ──

  lemma WriteOk(imp: Importer, v: Vouch, k: Key)
    requires BrokerOk(imp, v, k)
    ensures BrokerOk(imp.(dirty := false, file := Some(Content(imp))), v, k)
  {
  }

  lemma SettleOk(imp: Importer, now: nat, flushMs: nat, v: Vouch, k: Key)
    requires BrokerOk(imp, v, k)
    ensures BrokerOk(Settle(imp, now, flushMs), v, k)
  {
    hide Flushed;
  }

  lemma SaveOk(imp: Importer, now: nat, flushMs: nat, up: bool, ok: bool, v: Vouch, k: Key)
    requires BrokerOk(imp, v, k)
    ensures BrokerOk(Save(imp, now, flushMs, up, ok), v, k)
  {
    hide BrokerOk, Settle, Content;
    var s1 := if imp.unflushed != map[] && up then Settle(imp, now, flushMs) else imp;
    if imp.unflushed != map[] && up { SettleOk(imp, now, flushMs, v, k); }
    if s1.dirty && !s1.purged && ok { WriteOk(s1, v, k); }
  }

  lemma DownOk(imp: Importer, now: nat, flushMs: nat, up: bool, ok: bool, v: Vouch, k: Key)
    requires BrokerOk(imp, v, k)
    ensures BrokerOk(Down(imp, now, flushMs, up, ok), v, k)
  {
    hide BrokerOk, Settle, Save;
    var s1 := Settle(imp, now, flushMs);
    SettleOk(imp, now, flushMs, v, k);
    var s2 := s1.(epoch := s1.epoch + 1);
    SameOk(s1, s2, v, k);
    SaveOk(s2, now, flushMs, up, ok, v, k);
    var s3 := Save(s2, now, flushMs, up, ok);
    SameOk(s3, s3.(ready := None, readyPid := None), v, k);
  }

  lemma ReadyOk(imp: Importer, pid: nat, v: Vouch, k: Key)
    requires BrokerOk(imp, v, k)
    ensures BrokerOk(Ready(imp, pid), v, k)
  {
    hide BrokerOk, Ready;
    ReadyIs(imp, pid);
    SameOk(imp, Ready(imp, pid), v, k);
  }

  lemma LaunchedOk(imp: Importer, pid: nat, now: nat, flushMs: nat, up: bool, ok: bool, v: Vouch, k: Key)
    requires BrokerOk(imp, v, k)
    ensures BrokerOk(Launched(imp, pid, now, flushMs, up, ok), v, k)
  {
    hide BrokerOk, Down, Ready;
    DownOk(imp, now, flushMs, up, ok, v, k);
    var s1 := Down(imp, now, flushMs, up, ok);
    var s2 := s1.(launch := s1.launch + 1);
    SameOk(s1, s2, v, k);
    ReadyOk(s2, pid, v, k);
  }

  lemma LoadedOk(imp: Importer, v: Vouch, k: Key)
    requires FileOk(imp, v, k)
    ensures BrokerOk(Loaded(imp.file), v, k)
  {
  }

  lemma PurgeOk(imp: Importer, v: Vouch, k: Key)
    requires BrokerOk(imp, v, k)
    ensures BrokerOk(Purge(imp), v, k)
  {
    assert TombsOk(PurgeSet(imp), v, k);
    hide PurgeSet;
  }

  // ── jobs ──

  lemma StartedOk(imp: Importer, imp': Importer, sets: map<Key, Param>, deletes: map<Key, Tomb>, expired: set<Key>, v: Vouch, k: Key)
    requires BrokerOk(imp, v, k) && StartedWith(imp, imp', sets, deletes, expired) && imp'.file == imp.file
    requires (k in sets ==> k in imp.snapshot && sets[k] == imp.snapshot[k]) && TombsOk(deletes, v, k)
    ensures BrokerOk(imp', v, k)
  {
  }

  lemma ReapplyOk(imp: Importer, now: nat, v: Vouch, k: Key)
    requires BrokerOk(imp, v, k) && imp.queue != [] && imp.running.None? && imp.queue[0].ReadyJob?
    ensures BrokerOk(Capture(imp, now), v, k)
  {
    var imp' := Capture(imp, now);
    assert TombsOk(imp.pending + LostTombs(imp), v, k) by { LostOk(imp, v, k); }
    hide Capture, NothingToApply, StartedWith, BrokerOk, LostTombs, ExpiredKeys, TombsOk;
    SkipIs(imp, now);
    FileAtStart(imp, now);
    if NothingToApply(imp) {
      SameOk(imp, imp.(queue := imp.queue[1..]), v, k);
    } else {
      CaptureReapplies(imp, now);
      StartedOk(imp, imp', imp.snapshot - ExpiredKeys(imp, now), imp.pending + LostTombs(imp), ExpiredKeys(imp, now), v, k);
    }
  }

  lemma LostOk(imp: Importer, v: Vouch, k: Key)
    requires BrokerOk(imp, v, k)
    ensures TombsOk(imp.pending + LostTombs(imp), v, k)
  {
  }

  lemma StartOk(imp: Importer, now: nat, v: Vouch, k: Key)
    requires BrokerOk(imp, v, k) && imp.queue != [] && imp.running.None?
    ensures BrokerOk(Capture(imp, now), v, k)
  {
    hide Capture, StartedWith, BrokerOk, Captures, TombsOk;
    if imp.queue[0].ReadyJob? {
      ReapplyOk(imp, now, v, k);
    } else {
      var imp' := Capture(imp, now);
      FileAtStart(imp, now);
      var sets, deletes := CaptureStarts(imp, now, k);
      CapturedOk(imp, imp', sets, deletes, v, k);
      StartedOk(imp, imp', sets, deletes, {}, v, k);
    }
  }

  lemma CapturedOk(imp: Importer, imp': Importer, sets: map<Key, Param>, deletes: map<Key, Tomb>, v: Vouch, k: Key)
    requires BrokerOk(imp, v, k) && Captures(imp, imp', sets, deletes, {}, k) && !imp.queue[0].ReadyJob?
    ensures TombsOk(deletes, v, k) && (k in sets ==> k in imp.snapshot && sets[k] == imp.snapshot[k])
  {
  }

  lemma FinishedOk(imp: Importer, imp': Importer, now: nat, dropped: set<Key>, v: Vouch, k: Key)
    requires BrokerOk(imp, v, k) && imp.running.Some? && FinishedWith(imp, imp', now, Applied(imp, imp.running.value), dropped)
    requires imp'.file.None? || imp'.file == imp.file
    ensures BrokerOk(imp', v, k)
  {
    hide Applied;
    assert k in imp'.managed ==> k in imp.managed && imp'.managed[k] == imp.managed[k];
    FinishAt(imp, imp', now, Applied(imp, imp.running.value), dropped, k);
    hide FinishedWith;
  }

  lemma FinishOk(imp: Importer, now: nat, v: Vouch, k: Key)
    requires BrokerOk(imp, v, k) && imp.running.Some?
    ensures BrokerOk(Finish(imp, now), v, k)
  {
    hide Finish, FinishedWith, Applied, RefusedSets, BrokerOk;
    FileAtFinish(imp, now);
    FinishesWith(imp, now);
    FinishedOk(imp, Finish(imp, now), now, if imp.running.value.job.PurgeJob? then {} else RefusedSets(imp.running.value), v, k);
  }

  lemma RunOnlyOk(imp: Importer, imp': Importer, v: Vouch, k: Key)
    requires BrokerOk(imp, v, k) && RunOnly(imp, imp')
    ensures BrokerOk(imp', v, k)
  {
  }

  // ── Brave ──

  /** Everything a jar gets comes from a jar that is already all right. */
  lemma PartsOk(j: Jar, m: Jar, without: set<Key>, v: Vouch, k: Key)
    requires JarOk(j, v, k) && JarOk(m, v, k)
    ensures JarOk(j + m, v, k) && JarOk(j - without, v, k) && JarOk((j - without) + m, v, k)
  {
  }

  lemma RestrictedOk(j: Jar, ks: set<Key>, v: Vouch, k: Key)
    requires JarOk(j, v, k)
    ensures JarOk(Restrict(j, ks), v, k)
  {
  }

  lemma AtBrave(s: Sys, t: Timing, a: Step, v: Vouch, k: Key)
    requires AllOk(s, v, k) && Enabled(s, t, a) && BraveStep(a)
    ensures AllOk(NextBrave(s, t, a), v, k)
  {
    hide BrokerOk, JarOk, Down, Launched, MarkUncommitted, Restrict;
    var b := s.brave;
    match a
    case Commit(keys) =>
      RestrictedOk(b.memory, keys, v, k);
      PartsOk(b.disk, Restrict(b.memory, keys), keys, v, k);
    case SiteWrite(x) => PartsOk(b.memory, b.memory, {x}, v, k);
    case Process => PartsOk(b.memory, b.inbox[0], {}, v, k);
    case DownReport(up, ok) => DownOk(s.imp, s.now, t.flushMs, up, ok, v, k);
    case Launch(kept, pid, up, ok) =>
      LaunchedOk(s.imp, pid, s.now, t.flushMs, up, ok, v, k);
      RestrictedOk(b.disk, kept, v, k);
    case LatePipe(pid, up, ok) => LaunchedOk(s.imp, pid, s.now, t.flushMs, up, ok, v, k);
    case _ =>
  }

  // ── every step ──

  lemma AtBridge(s: Sys, a: Step, v: Vouch, k: Key)
    requires AllOk(s, v, k) && BridgeStep(a) && Says(a, v, k)
    ensures AllOk(NextBridge(s, a), v, k)
  {
    hide BrokerOk, BraveOk, Full, Delta;
    match a
    case FullBatch(id, items, last, up) => FullOk(s.imp, id, items, last, up, v, k);
    case DeltaMessage(ch, up) => DeltaOk(s.imp, ch, up, v, k);
    case BridgeConnects(id) => SameOk(s.imp, Connected(s.imp, id), v, k);
    case BridgeCloses(id) => SameOk(s.imp, ConnClosed(s.imp, id), v, k);
  }

  lemma AtBroker(s: Sys, t: Timing, a: Step, v: Vouch, k: Key)
    requires AllOk(s, v, k) && BrokerStep(a)
    ensures AllOk(NextBroker(s, t, a), v, k)
  {
    assert FileOk(s.imp, v, k);
    hide BrokerOk, JarOk, FileOk, Ready, Save, Purge, Loaded, Forgotten, RefusedDeletions;
    match a
    case EnsureBrave(pid) => ReadyOk(s.imp, pid, v, k);
    case PurgeRequest => PurgeOk(s.imp, v, k);
    case SaveState(up, ok) => SaveOk(s.imp, s.now, t.flushMs, up, ok, v, k);
    case BrokerRestart => LoadedOk(s.imp, v, k);
  }

  lemma SendOk(s: Sys, chunk: set<Key>, v: Vouch, k: Key)
    requires AllOk(s, v, k) && Running(s)
    ensures JarOk(Restrict(s.imp.running.value.todo, chunk), v, k) && BrokerOk(Sent(s.imp, chunk), v, k)
  {
    RestrictedOk(s.imp.running.value.todo, chunk, v, k);
    hide JarOk, BrokerOk, Restrict;
    SentOnly(s.imp, chunk);
    RunOnlyOk(s.imp, Sent(s.imp, chunk), v, k);
  }

  lemma AtJob(s: Sys, t: Timing, a: Step, v: Vouch, k: Key)
    requires AllOk(s, v, k) && Enabled(s, t, a) && !BraveStep(a) && !BridgeStep(a) && !BrokerStep(a)
    ensures AllOk(NextJob(s, t, a), v, k)
  {
    hide BrokerOk, JarOk, Capture, Finish, Restrict, Connect, Sent, Refused, Fail, RunOnly;
    match a
    case JobStart => StartOk(s.imp, s.now, v, k);
    case JobConnect =>
      ConnectOnly(s.imp, s.brave.launch);
      RunOnlyOk(s.imp, Connect(s.imp, s.brave.launch), v, k);
    case JobSend(chunk) => SendOk(s, chunk, v, k);
    case JobRefused(x) =>
      RefusedOnly(s.imp, x);
      RunOnlyOk(s.imp, Refused(s.imp, x), v, k);
    case JobFinish => FinishOk(s.imp, s.now, v, k);
    case JobFail =>
      FailedOnly(s.imp);
      RunOnlyOk(s.imp, Fail(s.imp), v, k);
  }

  lemma AtStep(s: Sys, t: Timing, a: Step, v: Vouch, k: Key)
    requires AllOk(s, v, k) && Enabled(s, t, a) && Says(a, v, k)
    ensures AllOk(Next(s, t, a), v, k)
  {
    hide AllOk, Says, NextBrave, NextBridge, NextBroker, NextJob, Enabled;
    if BraveStep(a) { AtBrave(s, t, a, v, k); }
    else if BridgeStep(a) { AtBridge(s, a, v, k); }
    else if BrokerStep(a) { AtBroker(s, t, a, v, k); }
    else { AtJob(s, t, a, v, k); }
  }

  // ── every run ──

  ghost predicate AllSay(steps: seq<Step>, v: Vouch, k: Key) {
    forall a :: a in steps ==> Says(a, v, k)
  }

  lemma {:induction false} OverRun(s0: Sys, t: Timing, steps: seq<Step>, s: Sys, v: Vouch, k: Key)
    requires AllOk(s0, v, k) && Reaches(s0, t, steps, s) && AllSay(steps, v, k)
    ensures AllOk(s, v, k)
    decreases |steps|
  {
    if steps != [] {
      hide AllOk, Says, Next, Enabled;
      assert steps[0] in steps && forall a :: a in steps[1..] ==> a in steps;
      AtStep(s0, t, steps[0], v, k);
      OverRun(Next(s0, t, steps[0]), t, steps[1..], s, v, k);
    }
  }

  /** Nothing is made up: whatever holds of the identity of every cookie that a message gives under k holds of every value and
      deletion of k, wherever it is: in the broker's maps and its file, in the running job and the lists of purges, and in Brave. */
  lemma NothingMadeUp(s0: Sys, t: Timing, steps: seq<Step>, s: Sys, v: Vouch, k: Key)
    requires Init(s0) && Reaches(s0, t, steps, s) && AllSay(steps, v, k)
    ensures AllOk(s, v, k)
  {
    assert AllOk(s0, v, k);
    hide Init, AllOk;
    OverRun(s0, t, steps, s, v, k);
  }

  // ── calls name the cookie of their key ──

  /** Every cookie of the message comes under its own key. */
  ghost predicate UnderOwnKey(a: Step) {
    match a
    case FullBatch(_, items, _, _) => forall k :: k in items ==> CookieKeys.CookieKey(items[k]) == k
    case DeltaMessage(ch, _) => forall k :: k in ch ==> CookieKeys.CookieKey(ch[k].param) == k
    case _ => true
  }

  const OWN_KEY: Vouch := (k: Key, p: Param) => CookieKeys.CookieKey(p) == k

  ghost predicate Named(j: Jar, k: Key) {
    k in j ==> CookieKeys.CookieKey(j[k]) == k
  }

  /** k's param in every map of the broker is k's cookie. */
  ghost predicate BrokerNames(imp: Importer, k: Key) {
    && Named(imp.snapshot, k) && Named(imp.managed, k) && Named(imp.seen, k)
    && (k in imp.pending ==> CookieKeys.CookieKey(imp.pending[k].param) == k)
    && (k in imp.unflushed ==> CookieKeys.CookieKey(imp.unflushed[k].tomb.param) == k)
    && (forall i :: 0 <= i < |imp.replaced| && k in imp.replaced[i] ==> CookieKeys.CookieKey(imp.replaced[i][k].param) == k)
    && (imp.file.Some? ==> Named(imp.file.value.managed, k) && Named(imp.file.value.pending, k))
    && (imp.running.Some? ==>
          && Named(imp.running.value.todo, k)
          && (k in imp.running.value.deletes ==> CookieKeys.CookieKey(imp.running.value.deletes[k].param) == k))
  }

  ghost predicate BraveNames(b: Brave, k: Key) {
    Named(b.memory, k) && Named(b.disk, k) && forall j :: j in b.inbox ==> Named(j, k)
  }

  lemma OwnKeyIs(p: Param, k: Key)
    ensures OWN_KEY(k, IdentityOf(p)) <==> CookieKeys.CookieKey(p) == k
  {
    hide CookieKeys.CookieKey;
    CookieKeys.SameKey(p);
  }

  lemma JarNames(j: Jar, k: Key)
    requires JarOk(j, OWN_KEY, k)
    ensures Named(j, k)
  {
    hide CookieKeys.CookieKey;
    if k in j { OwnKeyIs(j[k], k); }
  }

  lemma IdsName(m: map<Key, Param>, k: Key)
    requires IdsOk(m, OWN_KEY, k)
    ensures Named(m, k)
  {
    hide CookieKeys.CookieKey;
  }

  lemma TombNames(t: Tomb, k: Key)
    requires TombOk(t, OWN_KEY, k)
    ensures CookieKeys.CookieKey(t.param) == k
  {
    hide CookieKeys.CookieKey;
    OwnKeyIs(t.param, k);
  }

  lemma OkNames(s: Sys, k: Key)
    requires AllOk(s, OWN_KEY, k)
    ensures BrokerNames(s.imp, k) && BraveNames(s.brave, k)
  {
    var imp := s.imp;
    hide CookieKeys.CookieKey, JarOk, IdsOk, Named, TombOk;
    JarNames(imp.snapshot, k);
    IdsName(imp.managed, k);
    IdsName(imp.seen, k);
    if k in imp.pending { TombNames(imp.pending[k], k); }
    if k in imp.unflushed { TombNames(imp.unflushed[k].tomb, k); }
    forall i | 0 <= i < |imp.replaced| && k in imp.replaced[i] ensures CookieKeys.CookieKey(imp.replaced[i][k].param) == k {
      assert TombsOk(imp.replaced[i], OWN_KEY, k);
      TombNames(imp.replaced[i][k], k);
    }
    if imp.file.Some? {
      IdsName(imp.file.value.managed, k);
      IdsName(imp.file.value.pending, k);
    }
    if imp.running.Some? {
      JarNames(imp.running.value.todo, k);
      if k in imp.running.value.deletes { TombNames(imp.running.value.deletes[k], k); }
    }
    JarNames(s.brave.memory, k);
    JarNames(s.brave.disk, k);
    forall j | j in s.brave.inbox ensures Named(j, k) { JarNames(j, k); }
  }

  /** On every run of messages that give each cookie under its own key: so does everything the broker keeps, saves and sends, set or
      deletion, and everything in Brave. No deletion of a key is ever another cookie's. */
  lemma EveryParamIsItsKeys(s0: Sys, t: Timing, steps: seq<Step>, s: Sys, k: Key)
    requires Init(s0) && Reaches(s0, t, steps, s) && forall a :: a in steps ==> UnderOwnKey(a)
    ensures BrokerNames(s.imp, k) && BraveNames(s.brave, k)
  {
    forall a | a in steps ensures Says(a, OWN_KEY, k) { OwnKeySays(a, k); }
    hide Init, AllOk, Says, UnderOwnKey, BrokerNames, BraveNames;
    NothingMadeUp(s0, t, steps, s, OWN_KEY, k);
    OkNames(s, k);
  }

  lemma OwnKeySays(a: Step, k: Key)
    requires UnderOwnKey(a)
    ensures Says(a, OWN_KEY, k)
  {
    hide CookieKeys.CookieKey;
    if a.FullBatch? && k in a.items { OwnKeyIs(a.items[k], k); }
    if a.DeltaMessage? && k in a.changes { OwnKeyIs(a.changes[k].param, k); }
  }

  // ── a deletion is the twin of a cookie that was synced ──

  /** The message gives k this cookie. */
  ghost predicate Gives(a: Step, k: Key, p: Param) {
    match a
    case FullBatch(_, items, _, _) => k in items && items[k] == p
    case DeltaMessage(ch, _) => k in ch && ch[k].param == p
    case _ => false
  }

  ghost predicate Given(steps: seq<Step>, k: Key, id: Param) {
    exists a, p :: a in steps && Gives(a, k, p) && IdentityOf(p) == id
  }

  /** Every deletion a call carries is the expired twin of a cookie that a message gave under its key. */
  lemma DeletionsAreTwins(s0: Sys, t: Timing, steps: seq<Step>, s: Sys, chunk: set<Key>, k: Key) returns (a: Step, p: Param)
    requires Init(s0) && Timely(t) && Reaches(s0, t, steps, s)
    requires Enabled(s, t, JobSend(chunk)) && k in chunk && k in s.imp.running.value.deletes
    ensures a in steps && Gives(a, k, p) && s.imp.running.value.todo[k] == ExpireParam(IdentityOf(p))
  {
    var v: Vouch := (x: Key, q: Param) => Given(steps, x, q);
    forall b | b in steps ensures Says(b, v, k) { GivenSays(steps, b, v, k); }
    InitHolds(s0, t);
    RunHolds(s0, t, steps, s);
    assert KeyInv(s, k) && Deleting(s, k);
    NothingMadeUp(s0, t, steps, s, v, k);
    hide Inv, KeyInv, Init, Says, Gives;
    var d := s.imp.running.value.deletes[k];
    assert TombOk(d, v, k) && Given(steps, k, IdentityOf(d.param));
    a, p :| a in steps && Gives(a, k, p) && IdentityOf(p) == IdentityOf(d.param);
  }

  lemma GivenSays(steps: seq<Step>, a: Step, v: Vouch, k: Key)
    requires a in steps && forall q :: v(k, q) == Given(steps, k, q)
    ensures Says(a, v, k)
  {
    match a
    case FullBatch(_, items, _, _) => if k in items { assert Gives(a, k, items[k]); }
    case DeltaMessage(ch, _) => if k in ch { assert Gives(a, k, ch[k].param); }
    case _ =>
  }

  // ── which twin ──

  /** What a removal deletes: the managed cookie, or for a key not managed the one the message names. */
  ghost predicate DeletesTwin(imp: Importer, imp': Importer, a: Step, k: Key) {
    && k in imp'.pending
    && (k in imp.managed ==> imp'.pending[k].param == ExpireParam(imp.managed[k]))
    && (k !in imp.managed && k !in imp.snapshot ==>
          a.DeltaMessage? && k in a.changes && imp'.pending[k].param == ExpireParam(IdentityOf(a.changes[k].param)))
  }

  lemma FullDeletes(imp: Importer, a: Step, k: Key)
    requires a.FullBatch? && a.last && k in LeftOut(imp, a.bridge, a.items)
    ensures DeletesTwin(imp, Full(imp, a.bridge, a.items, a.last, a.up), a, k)
  {
    var sets, gone := NotOvertaken(imp, a.bridge, a.items), LeftOut(imp, a.bridge, a.items);
    var s0 := Batched(imp, a.bridge, a.items, true);
    NotLeftOut(imp, a.bridge, a.items, k);
    LeftOutManaged(imp, a.bridge, a.items, true);
    BatchedManaged(imp, a.bridge, a.items, k);
    assert k in s0.managed && k in imp.managed && s0.managed[k] == imp.managed[k];
    hide SetSynced, LeftOut, NotOvertaken, Forget, StagingOf, SyncDirties, Batched;
    ForgetAt(s0, gone, map[], k);
    assert Full(imp, a.bridge, a.items, true, a.up).pending == Forget(s0, gone, map[]).pending by {
      FullIs(imp, a.bridge, a.items, a.up);
    }
    hide Full;
  }

  lemma BatchedManaged(imp: Importer, id: nat, items: map<Key, Param>, k: Key)
    requires k !in NotOvertaken(imp, id, items)
    ensures var m := Batched(imp, id, items, true).managed; (k in m <==> k in imp.managed) && (k in m ==> m[k] == imp.managed[k])
  {
    hide NotOvertaken;
  }

  lemma FullIs(imp: Importer, id: nat, items: map<Key, Param>, up: bool)
    requires LeftOut(imp, id, items) <= Batched(imp, id, items, true).managed.Keys
    ensures Full(imp, id, items, true, up) ==
            ApplyNow(Forget(Batched(imp, id, items, true), LeftOut(imp, id, items), map[]), NotOvertaken(imp, id, items).Keys, up)
  {
    hide SetSynced, LeftOut, NotOvertaken, Forget, StagingOf, SyncDirties, ApplyNow;
  }

  lemma DeltaDeletes(imp: Importer, a: Step, k: Key)
    requires a.DeltaMessage? && k in a.changes && a.changes[k].removed
    ensures DeletesTwin(imp, Delta(imp, a.changes, a.up), a, k)
  {
    var ch := a.changes;
    DeltaIs(imp, ch, a.up);
    assert k in Removed(ch) && Removed(ch)[k] == ch[k].param && k !in Added(ch);
    var s1 := Touched(imp, ch);
    TouchedSame(imp, ch);
    var s2 := SetSynced(s1, Added(ch));
    assert (k in s2.managed <==> k in imp.managed) && (k in imp.managed ==> s2.managed[k] == imp.managed[k]);
    assert k in s2.snapshot <==> k in imp.snapshot;
    hide Touched, Added, Removed, SetSynced, Forget, Delta;
    ForgetAt(s2, Removed(ch).Keys, Removed(ch), k);
  }

  /** Every removal deletes what was synced: after it, the pending deletion of k is the expired twin of the cookie the simple store
      had, if the broker did not give k up; of the identity taken over from an earlier broker, if only that one synced k; and of the
      cookie the message names, if k was not managed at all. */
  lemma RemovalDeletesTheSynced(s0: Sys, t: Timing, steps: seq<Step>, s: Sys, a: Step, k: Key)
    requires Init(s0) && Timely(t) && Reaches(s0, t, steps, s) && Enabled(s, t, a) && Removes(s, a, k)
    ensures var pending := Next(s, t, a).imp.pending;
      && k in pending
      && (k in s.past.store && k !in s.past.stranded ==> pending[k].param == ExpireParam(IdentityOf(s.past.store[k])))
      && (k in s.imp.managed ==> pending[k].param == ExpireParam(s.imp.managed[k]))
      && (k !in s.imp.managed ==>
            a.DeltaMessage? && k in a.changes && pending[k].param == ExpireParam(IdentityOf(a.changes[k].param)))
  {
    var all: Vouch := (x: Key, q: Param) => true;
    NothingMadeUp(s0, t, steps, s, all, k);
    InitHolds(s0, t);
    RunHolds(s0, t, steps, s);
    assert KeyInv(s, k) && StoreAgrees(s, k) && MapsAgree(s, k) && MapsOk(s.imp, all, k);
    hide Inv, KeyInv, Init, Reaches, Full, Delta, LeftOut, NotOvertaken, Added, Removed;
    if a.FullBatch? { FullDeletes(s.imp, a, k); } else { DeltaDeletes(s.imp, a, k); }
  }
}
