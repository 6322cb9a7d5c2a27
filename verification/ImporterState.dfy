// The broker's side of the cookie bridge as a value and its atomic steps
// (src/cookie-bridge/importer.js). One step is what runs between two awaits;
// the class in Importer.dfy performs these steps in place.
module ImporterState {
  import opened Cookies

  /** A deletion. `stamp` stands for the identity of the object the source compares with `===`. */
  datatype Tomb = Tomb(param: Param, stamp: nat)

  /** A deletion applied to the Brave of `epoch` at `at`, maybe not on disk yet. */
  datatype Held = Held(tomb: Tomb, at: nat, epoch: nat)

  /** A full sync in progress: the keys it included, and those a delta touched meanwhile. */
  datatype Staging = Staging(keys: set<Key>, overtaken: set<Key>)

  datatype Change = Change(removed: bool, param: Param)

  /** A purge's job holds the map of pending deletions that its purge made, by number: the live one or a replaced one. */
  datatype Job =
    | ApplyJob(keys: set<Key>)
    | ReadyJob(token: nat)
    | PurgeJob(id: nat)

  /** The job at the head of the queue once it started: what it captured and what is left to send. */
  datatype Run = Run(job: Job, epoch: nat, conn: Option<nat>, todo: map<Key, Param>, deletes: map<Key, Tomb>, refused: set<Key>)

  datatype Saved = Saved(managed: map<Key, Param>, pending: map<Key, Param>)

  datatype Importer = Importer(
    snapshot: map<Key, Param>,
    managed: map<Key, Param>,
    pending: map<Key, Tomb>,
    unflushed: map<Key, Held>,
    seen: map<Key, Param>,
    staging: map<nat, Staging>,
    bridge: Option<nat>,
    queue: seq<Job>,
    running: Option<Run>,
    ready: Option<nat>,
    readyPid: Option<nat>,
    readyLaunch: nat,
    launch: nat,
    epoch: nat,
    dirty: bool,
    purged: bool,
    file: Option<Saved>,
    // the maps of pending deletions that purges replaced, numbered from 0; `pending` is the next one
    replaced: seq<map<Key, Tomb>>,
    // counters that only name things: the next tombstone and apply
    stamp: nat,
    token: nat)

  ghost function Identities(m: map<Key, Param>): map<Key, Param> {
    MapOf(m.Keys, k requires k in m => IdentityOf(m[k]))
  }

  ghost function TombParams(m: map<Key, Tomb>): map<Key, Param> {
    MapOf(m.Keys, k requires k in m => m[k].param)
  }

  // ── syncing and forgetting ──

  ghost predicate SyncDirties(s: Importer, m: map<Key, Param>) {
    exists k :: k in m && (k !in s.managed || s.managed[k] != IdentityOf(m[k]) || k in s.pending || k in s.unflushed)
  }

  /** Snapshot these; the bridge manages them from now on, and no tombstone may undo them. */
  ghost function SetSynced(s: Importer, m: map<Key, Param>): Importer {
    s.(snapshot := s.snapshot + m,
       managed := s.managed + Identities(m),
       seen := s.seen + Identities(m),
       pending := s.pending - m.Keys,
       unflushed := s.unflushed - m.Keys,
       dirty := s.dirty || SyncDirties(s, m))
  }

  /** The identity a deletion of k carries: the managed one, else the snapshot's, else the change's. */
  ghost function DeletedIdentity(s: Importer, k: Key, given: map<Key, Param>): Param
    requires k in s.managed || k in s.snapshot || k in given
  {
    if k in s.managed then s.managed[k]
    else if k in s.snapshot then IdentityOf(s.snapshot[k])
    else IdentityOf(given[k])
  }

  /** Delete these from Brave (now or at the next launch) and stop managing them. */
  ghost function Forget(s: Importer, ks: set<Key>, given: map<Key, Param>): Importer
    requires forall k :: k in ks ==> k in s.managed || k in s.snapshot || k in given
  {
    s.(snapshot := s.snapshot - ks,
       managed := s.managed - ks,
       pending := s.pending + MapOf(ks, k requires k in s.managed || k in s.snapshot || k in given =>
                                Tomb(ExpireParam(DeletedIdentity(s, k, given)), s.stamp)),
       unflushed := s.unflushed - ks,
       dirty := s.dirty || ks != {},
       stamp := s.stamp + 1)
  }

  /** Brave up: queue an apply of these keys and of the pending deletions. */
  ghost function ApplyNow(s: Importer, keys: set<Key>, up: bool): Importer {
    if !up || (keys == {} && s.pending == map[]) then s
    else s.(queue := s.queue + [ApplyJob(keys)])
  }

  ghost function StagingOf(s: Importer, id: nat): Staging {
    if id in s.staging then s.staging[id] else Staging({}, {})
  }

  /** The cookies of a batch that no delta of this full sync overtook. */
  ghost function NotOvertaken(s: Importer, id: nat, items: map<Key, Param>): map<Key, Param> {
    items - StagingOf(s, id).overtaken
  }

  /** The managed keys a full sync ending with this batch did not include. */
  ghost function LeftOut(s: Importer, id: nat, items: map<Key, Param>): set<Key> {
    var sets := NotOvertaken(s, id, items);
    SetSynced(s, sets).managed.Keys - (StagingOf(s, id).keys + sets.Keys)
  }

  /** One batch of accepted, unexpired cookies; with `last`, every managed key the sync left out goes. */
  ghost function Full(s: Importer, id: nat, items: map<Key, Param>, last: bool, up: bool): Importer {
    var sets := NotOvertaken(s, id, items);
    var keys := StagingOf(s, id).keys + sets.Keys;
    var s1 := SetSynced(s, sets);
    var s2 := if last
              then Forget(s1.(staging := s1.staging - {id}), LeftOut(s, id, items), map[])
              else s1.(staging := s1.staging[id := Staging(keys, StagingOf(s, id).overtaken)]);
    ApplyNow(s2, sets.Keys, up)
  }

  ghost function Added(ch: map<Key, Change>): map<Key, Param> {
    MapOf((set k | k in ch && !ch[k].removed), k requires k in ch => ch[k].param)
  }

  ghost function Removed(ch: map<Key, Change>): map<Key, Param> {
    MapOf((set k | k in ch && ch[k].removed), k requires k in ch => ch[k].param)
  }

  ghost function Touch(st: Staging, ch: map<Key, Change>): Staging {
    Staging(st.keys - Removed(ch).Keys + Added(ch).Keys, st.overtaken + ch.Keys)
  }

  /** The accepted changes of one delta message, the last one per cookie. */
  ghost function Delta(s: Importer, ch: map<Key, Change>, up: bool): Importer {
    var s1 := s.(staging := MapOf(s.staging.Keys, id requires id in s.staging => Touch(s.staging[id], ch)));
    var s2 := SetSynced(s1, Added(ch));
    ApplyNow(Forget(s2, Removed(ch).Keys, Removed(ch)), Added(ch).Keys, up)
  }

  ghost function Connected(s: Importer, id: nat): Importer {
    s.(bridge := Some(id), purged := false)
  }

  ghost function ConnClosed(s: Importer, id: nat): Importer {
    s.(bridge := if s.bridge == Some(id) then None else s.bridge, staging := s.staging - {id})
  }

  // ── Brave going up and down ──

  /** The tombstones the running Brave has held for flushMs: they are on disk. */
  ghost function Flushed(s: Importer, now: nat, flushMs: nat): set<Key> {
    set k | k in s.unflushed && s.unflushed[k].epoch == s.epoch && now - s.unflushed[k].at >= flushMs
  }

  ghost function Settle(s: Importer, now: nat, flushMs: nat): Importer {
    s.(unflushed := s.unflushed - Flushed(s, now, flushMs), dirty := s.dirty || Flushed(s, now, flushMs) != {})
  }

  /** What the state file holds: unflushed tombstones are saved as pending. */
  ghost function Content(s: Importer): Saved {
    Saved(s.managed, MapOf(s.pending.Keys + s.unflushed.Keys, k requires k in s.pending || k in s.unflushed =>
      IdentityOf(if k in s.pending then s.pending[k].param else s.unflushed[k].tomb.param)))
  }

  /** `ok`: the file system took the write. */
  ghost function Save(s: Importer, now: nat, flushMs: nat, up: bool, ok: bool): Importer {
    var s1 := if s.unflushed != map[] && up then Settle(s, now, flushMs) else s;
    if s1.dirty && !s1.purged && ok then s1.(dirty := false, file := Some(Content(s1))) else s1
  }

  ghost function Down(s: Importer, now: nat, flushMs: nat, up: bool, ok: bool): Importer {
    var s1 := Settle(s, now, flushMs);
    Save(s1.(epoch := s1.epoch + 1), now, flushMs, up, ok).(ready := None, readyPid := None)
  }

  ghost function Ready(s: Importer, pid: nat): Importer {
    if s.ready.Some? && s.readyPid == Some(pid) && s.readyLaunch == s.launch then s
    else s.(readyPid := Some(pid), readyLaunch := s.launch, ready := Some(s.token), token := s.token + 1,
            queue := s.queue + [ReadyJob(s.token)])
  }

  ghost function Launched(s: Importer, pid: nat, now: nat, flushMs: nat, up: bool, ok: bool): Importer {
    var s1 := Down(s, now, flushMs, up, ok);
    Ready(s1.(launch := s1.launch + 1), pid)
  }

  // ── the apply queue ──

  ghost function LostTombs(s: Importer): map<Key, Tomb> {
    MapOf((set k | k in s.unflushed && s.unflushed[k].epoch != s.epoch), k requires k in s.unflushed => s.unflushed[k].tomb)
  }

  ghost function ExpiredKeys(s: Importer, now: nat): set<Key> {
    set k | k in s.snapshot && IsExpired(s.snapshot[k], now)
  }

  ghost function Start(s: Importer, sets: map<Key, Param>, deletes: map<Key, Tomb>): Importer
    requires s.queue != []
  {
    s.(queue := s.queue[1..],
       running := Some(Run(s.queue[0], s.epoch, None, sets + TombParams(deletes), deletes, {})))
  }

  /** What a purge's job deletes: the entries its map has by now. */
  function PurgeList(s: Importer, id: nat): map<Key, Tomb> {
    if id < |s.replaced| then s.replaced[id] else s.pending
  }

  /** The head job starts: it reads the state as it is now. */
  ghost function Capture(s: Importer, now: nat): Importer
    requires s.queue != [] && s.running.None?
  {
    match s.queue[0]
    case ApplyJob(keys) => Start(s, Restrict(s.snapshot, keys), s.pending)
    case PurgeJob(id) => Start(s, map[], PurgeList(s, id))
    case ReadyJob(_) =>
      if s.snapshot == map[] && s.pending == map[] && LostTombs(s) == map[] then s.(queue := s.queue[1..])
      else
        var gone := ExpiredKeys(s, now);
        var s1 := s.(snapshot := s.snapshot - gone, managed := s.managed - gone, dirty := s.dirty || gone * s.managed.Keys != {});
        Start(s1, s1.snapshot, s.pending + LostTombs(s))
  }

  ghost function Connect(s: Importer, launch: nat): Importer
    requires s.running.Some?
  {
    s.(running := Some(s.running.value.(conn := Some(launch))))
  }

  /** One Storage.setCookies call with these keys leaves the broker. */
  ghost function Sent(s: Importer, chunk: set<Key>): Importer
    requires s.running.Some?
  {
    s.(running := Some(s.running.value.(todo := s.running.value.todo - chunk)))
  }

  ghost function Refused(s: Importer, k: Key): Importer
    requires s.running.Some?
  {
    var r := s.running.value;
    s.(running := Some(r.(todo := r.todo - {k}, refused := r.refused + {k})))
  }

  /** The deletion this run applied is still the one asked for. */
  ghost predicate Current(s: Importer, k: Key, t: Tomb) {
    (k in s.pending && s.pending[k] == t) || (k in s.unflushed && s.unflushed[k].tomb == t)
  }

  ghost function Applied(s: Importer, r: Run): set<Key> {
    set k | k in r.deletes && Current(s, k, r.deletes[k])
  }

  ghost function NowHeld(r: Run, done: set<Key>, now: nat): map<Key, Held>
    requires done <= r.deletes.Keys
  {
    MapOf(done, k requires k in r.deletes => Held(r.deletes[k], now, r.epoch))
  }

  ghost function DropRefused(s: Importer, refused: set<Key>): Importer {
    s.(snapshot := s.snapshot - refused, managed := s.managed - refused, dirty := s.dirty || refused * s.managed.Keys != {})
  }

  ghost function RefusedSets(r: Run): set<Key> {
    r.refused - r.deletes.Keys
  }

  /** Brave answered everything: applied deletions become tombstones, refused cookies are dropped. */
  ghost function Finish(s: Importer, now: nat): Importer
    requires s.running.Some?
  {
    var r := s.running.value;
    var done := Applied(s, r);
    var s1 := s.(running := None,
                 pending := s.pending - done,
                 unflushed := s.unflushed + NowHeld(r, done, now),
                 dirty := s.dirty || done != {});
    if r.job.PurgeJob? then s1.(purged := true, dirty := false, file := None)
    else DropRefused(s1, RefusedSets(r))
  }

  /** The connection failed: the running Brave is owed the whole snapshot again. */
  ghost function Fail(s: Importer): Importer
    requires s.running.Some?
  {
    var s1 := s.(running := None);
    match s.running.value.job
    case ApplyJob(_) => s1.(ready := None, readyPid := None)
    case ReadyJob(t) => if s.ready == Some(t) then s1.(ready := None) else s1
    case PurgeJob(_) => s1
  }

  // ── purge and restart ──

  /** Every key the bridge ever put into Brave, as a deletion of its own. */
  ghost function PurgeSet(s: Importer): map<Key, Tomb> {
    MapOf(s.seen.Keys + s.managed.Keys + s.unflushed.Keys + s.pending.Keys,
      k requires k in s.seen || k in s.managed || k in s.unflushed || k in s.pending =>
        if k in s.pending then s.pending[k]
        else if k in s.unflushed then s.unflushed[k].tomb
        else if k in s.managed then Tomb(ExpireParam(s.managed[k]), s.stamp)
        else Tomb(ExpireParam(s.seen[k]), s.stamp))
  }

  ghost function Purge(s: Importer): Importer {
    s.(snapshot := map[], managed := map[], seen := map[], staging := map[], unflushed := map[],
       pending := PurgeSet(s), dirty := true, stamp := s.stamp + 1, replaced := s.replaced + [s.pending],
       queue := s.queue + [PurgeJob(|s.replaced| + 1)])
  }

  /** A new broker that read `file`. */
  ghost function Loaded(file: Option<Saved>): Importer {
    var f := if file.Some? then file.value else Saved(map[], map[]);
    Importer(map[], f.managed, MapOf(f.pending.Keys, k requires k in f.pending => Tomb(ExpireParam(f.pending[k]), 0)),
        map[], f.managed + f.pending,
             map[], None, [], None, None, None, 0, 0, 0, false, false, file, [], 1, 0)
  }
}
