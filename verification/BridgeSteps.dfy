// The path from Chrome's cookies to the broker: Chrome's jar and its change events,
// the extension, the channel through its native host, and the broker
// (extensions/cookie-bridge/bridge-core.js, src/cookie-bridge/host.js, importer.js).
module BridgeSteps {
  import opened Cookies
  import opened ImporterState

  type Jar = map<Key, Param>

  /** A change event. `overwrite`: the removal Chrome reports before it adds the new value. */
  datatype Ev = Ev(key: Key, removed: bool, overwrite: bool, param: Param)

  /** A message of the extension: one batch of a full sync, or changes. */
  datatype Msg = FullMsg(items: Jar, last: bool) | DeltaMsg(changes: seq<Ev>)

  /** The extension. `gen` numbers the broker connection whose resync request it saw last; `posted` is the number
      it had when it last posted a full sync. */
  datatype Ext = Ext(port: bool, run: nat, inFlight: bool, buf: seq<Ev>, gen: nat, posted: Option<nat>)

  /** `events`: changes Chrome has not told the extension yet. `reading`: the full reads under way by run, with what they read.
      `chan`: messages on their way to the broker; `back`: resync requests on their way to the extension. `link`: the
      broker connection, numbered. */
  datatype Sys = Sys(jar: Jar, events: seq<Ev>, ext: Ext, reading: map<nat, Option<Jar>>, chan: seq<Msg>, back: seq<nat>,
                     link: Option<nat>, links: nat, imp: Importer, now: nat)

  // ── what the extension does ──

  /** An event the extension passes on: its cookie syncs, and it is not the removal half of an overwrite. */
  predicate Passes(f: Key -> bool, ev: Ev) {
    f(ev.key) && !(ev.removed && ev.overwrite)
  }

  function OnChanged(f: Key -> bool, x: Ext, ev: Ev): Ext {
    if x.port && Passes(f, ev) then x.(buf := x.buf + [ev]) else x
  }

  /** A resync request, or any other reason for a full sync: a new run supersedes one that still reads. */
  function RunStarts(x: Ext, gen: nat): Ext {
    if x.port then x.(run := x.run + 1, inFlight := true, gen := gen) else x
  }

  /** The run's read failed or was superseded. */
  function RunFails(x: Ext, run: nat): Ext {
    if run == x.run then x.(inFlight := false) else x
  }

  predicate Posts(x: Ext, run: nat) {
    x.port && run == x.run
  }

  function Disconnected(x: Ext): Ext {
    x.(port := false, run := x.run + 1, inFlight := false, buf := [], posted := None)
  }

  /** The batches of one full sync, the last one marked. */
  function Fulls(batches: seq<Jar>): (msgs: seq<Msg>)
    ensures |msgs| == |batches| && forall i :: 0 <= i < |batches| ==> msgs[i] == FullMsg(batches[i], i == |batches| - 1)
    decreases |batches|
  {
    if batches == [] then [] else [FullMsg(batches[0], |batches| == 1)] + Fulls(batches[1..])
  }

  function Deltas(batches: seq<seq<Ev>>): seq<Msg> {
    if batches == [] then [] else Deltas(batches[..|batches| - 1]) + [DeltaMsg(batches[|batches| - 1])]
  }

  /** The batches' elements, in order. */
  function Flatten<T>(batches: seq<seq<T>>): seq<T> {
    if batches == [] then [] else Flatten(batches[..|batches| - 1]) + batches[|batches| - 1]
  }

  /** These batches hold each cookie of `read` once. */
  ghost predicate Splits(batches: seq<Jar>, read: Jar) {
    && batches != []
    && (forall i, j :: 0 <= i < j < |batches| ==> batches[i].Keys !! batches[j].Keys)
    && (forall i :: 0 <= i < |batches| ==> forall k :: k in batches[i] ==> k in read && read[k] == batches[i][k])
    && (forall k :: k in read ==> exists i :: 0 <= i < |batches| && k in batches[i])
  }

  ghost function Synced(f: Key -> bool, jar: Jar): Jar {
    jar - (set k | k in jar && !f(k))
  }

  // ── what the broker does with a message ──

  ghost function Unexpired(items: Jar, now: nat): Jar {
    items - (set k | k in items && IsExpired(items[k], now))
  }

  ghost function LastPerKey(changes: seq<Ev>): map<Key, Ev> {
    if changes == [] then map[] else LastPerKey(changes[..|changes| - 1])[changes[|changes| - 1].key := changes[|changes| - 1]]
  }

  /** The accepted changes of a delta; an add that expired meanwhile is a removal, and `refused` ones are left out. */
  ghost function Accepted(changes: seq<Ev>, refused: set<Key>, now: nat): map<Key, Change> {
    var last := LastPerKey(changes);
    MapOf(last.Keys - refused, k requires k in last => Change(last[k].removed || IsExpired(last[k].param, now), last[k].param))
  }

  ghost function Received(imp: Importer, id: nat, m: Msg, refused: set<Key>, up: bool, now: nat): Importer {
    match m
    case FullMsg(items, last) => Full(imp, id, Unexpired(items, now), last, up)
    case DeltaMsg(changes) => Delta(imp, Accepted(changes, refused, now), up)
  }

  // ── steps ──

  datatype Step =
    | Tick(later: nat)
    | Adds(key: Key, param: Param)
    | Removes(key: Key)
    | Delivered
    | FullAsked
    | ReadTaken(run: nat)
    | ReadFailed(run: nat)
    | ReadDone(run: nat, batches: seq<Jar>, deltas: seq<seq<Ev>>)
    | Flushed(deltas: seq<seq<Ev>>)
    | Handled(refused: set<Key>, up: bool)
    | LinkUp
    | LinkDown
    | ResyncSeen
    | PortUp
    | PortLost
    | BrokerElse(imp: Importer)

  function Get<V>(m: map<Key, V>, k: Key): Option<V> {
    if k in m then Some(m[k]) else None
  }

  function LiveOf(v: Option<Param>, now: nat): Option<Param> {
    if v.Some? && IsExpired(v.value, now) then None else v
  }

  /** What else happens to the broker's snapshot: expired cookies may leave it; without a bridge, anything. */
  ghost predicate Elsewhere(s: Sys, imp: Importer) {
    && imp.snapshot.Keys <= imp.managed.Keys && imp.staging == s.imp.staging
    && (s.link.Some? ==> forall k :: LiveOf(Get(imp.snapshot, k), s.now) == LiveOf(Get(s.imp.snapshot, k), s.now))
  }

  ghost predicate Enabled(s: Sys, f: Key -> bool, a: Step) {
    match a
    case Tick(later) => s.now <= later
    case Delivered => s.events != []
    case ReadTaken(run) => run in s.reading && s.reading[run].None?
    case ReadFailed(run) => run in s.reading
    case ReadDone(run, batches, deltas) =>
      run in s.reading && s.reading[run].Some? && Splits(batches, Synced(f, s.reading[run].value)) && Flatten(deltas) == s.ext.buf
    case Flushed(deltas) => s.ext.port && !s.ext.inFlight && Flatten(deltas) == s.ext.buf
    case Handled(refused, _) =>
      s.chan != [] && (s.chan[0].DeltaMsg? ==> forall k :: k in refused ==>
        k !in s.imp.managed && k in LastPerKey(s.chan[0].changes) && LastPerKey(s.chan[0].changes)[k].removed)
    case LinkUp => s.ext.port && s.link.None?
    case LinkDown => s.link.Some?
    case ResyncSeen => s.back != []
    case PortUp => !s.ext.port
    case PortLost => s.ext.port
    case BrokerElse(imp) => Elsewhere(s, imp)
    case _ => true
  }

  ghost function Next(s: Sys, f: Key -> bool, a: Step): Sys
    requires Enabled(s, f, a)
  {
    match a
    case Tick(later) => s.(now := later)
    case Adds(k, p) =>
      s.(jar := s.jar[k := p],
         events := s.events + (if k in s.jar then [Ev(k, true, true, s.jar[k])] else []) + [Ev(k, false, false, p)])
    case Removes(k) =>
      if k in s.jar then s.(jar := s.jar - {k}, events := s.events + [Ev(k, true, false, s.jar[k])]) else s
    case Delivered => s.(ext := OnChanged(f, s.ext, s.events[0]), events := s.events[1..])
    case FullAsked =>
      var x := RunStarts(s.ext, s.ext.gen);
      s.(ext := x, reading := if s.ext.port then s.reading[x.run := None] else s.reading)
    case ReadTaken(run) => s.(reading := s.reading[run := Some(s.jar)])
    case ReadFailed(run) => s.(ext := RunFails(s.ext, run), reading := s.reading - {run})
    case ReadDone(run, batches, deltas) =>
      if Posts(s.ext, run)
      then s.(ext := s.ext.(inFlight := false, buf := [], posted := Some(s.ext.gen)), reading := s.reading - {run},
              chan := s.chan + Fulls(batches) + Deltas(deltas))
      else s.(ext := RunFails(s.ext, run), reading := s.reading - {run})
    case Flushed(deltas) => s.(ext := s.ext.(buf := []), chan := s.chan + Deltas(deltas))
    case Handled(refused, up) =>
      s.(chan := s.chan[1..], imp := if s.link.Some? then Received(s.imp, s.link.value, s.chan[0], refused, up, s.now) else s.imp)
    case LinkUp => s.(link := Some(s.links + 1), links := s.links + 1, back := s.back + [s.links + 1],
        imp := Connected(s.imp, s.links + 1))
    case LinkDown => s.(link := None, imp := ConnClosed(s.imp, s.link.value))
    case ResyncSeen =>
      var x := RunStarts(s.ext, s.back[0]);
      s.(back := s.back[1..], ext := x, reading := if s.ext.port then s.reading[x.run := None] else s.reading)
    case PortUp => s.(ext := s.ext.(port := true))
    case PortLost =>
      s.(ext := Disconnected(s.ext), chan := [], back := [], link := None,
         imp := if s.link.Some? then ConnClosed(s.imp, s.link.value) else s.imp)
    case BrokerElse(imp) => s.(imp := imp)
  }
}
