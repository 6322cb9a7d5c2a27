// End-to-end convergence: once nothing is on its way and a full sync got through,
// the broker's snapshot is what Chrome has.
module BridgeConvergence {
  import opened Cookies
  import opened ImporterState
  import opened BridgeSteps
  import opened ReplicationProofs

  // ── one key's view of what is on its way ──

  /** What the broker holds of a key, and whether the full sync in progress included it. */
  datatype View = View(val: Option<Param>, seen: bool)

  function EvStep(f: Key -> bool, k: Key, ev: Ev, x: View): View {
    if ev.key == k && f(k) then x.(val := if ev.removed then None else Some(ev.param)) else x
  }

  function Replay(f: Key -> bool, k: Key, evs: seq<Ev>, x: View): View {
    if evs == [] then x else EvStep(f, k, evs[|evs| - 1], Replay(f, k, evs[..|evs| - 1], x))
  }

  function MsgStep(f: Key -> bool, k: Key, m: Msg, x: View): View {
    match m
    case FullMsg(items, last) =>
      var y := if k in items then View(Some(items[k]), true) else x;
      if last then View(if y.seen then y.val else None, false) else y
    case DeltaMsg(changes) => Replay(f, k, changes, x)
  }

  function Run(f: Key -> bool, k: Key, chan: seq<Msg>, x: View): View {
    if chan == [] then x else MsgStep(f, k, chan[|chan| - 1], Run(f, k, chan[..|chan| - 1], x))
  }

  lemma {:induction false} ReplayParts(f: Key -> bool, k: Key, a: seq<Ev>, b: seq<Ev>, x: View)
    ensures Replay(f, k, a + b, x) == Replay(f, k, b, Replay(f, k, a, x))
  {
    if b == [] {
      assert a + b == a;
    } else {
      assert (a + b)[..|a + b| - 1] == a + b[..|b| - 1];
      ReplayParts(f, k, a, b[..|b| - 1], x);
    }
  }

  lemma {:induction false} RunParts(f: Key -> bool, k: Key, a: seq<Msg>, b: seq<Msg>, x: View)
    ensures Run(f, k, a + b, x) == Run(f, k, b, Run(f, k, a, x))
  {
    if b == [] {
      assert a + b == a;
    } else {
      assert (a + b)[..|a + b| - 1] == a + b[..|b| - 1];
      RunParts(f, k, a, b[..|b| - 1], x);
    }
  }

  lemma RunOne(f: Key -> bool, k: Key, m: Msg, x: View)
    ensures Run(f, k, [m], x) == MsgStep(f, k, m, x)
  {
    assert [m][..0] == [];
  }

  /** The last thing these events say of k: nothing, or its value. */
  function LastFor(f: Key -> bool, k: Key, evs: seq<Ev>): Option<Option<Param>> {
    if evs == [] then None
    else
      var ev := evs[|evs| - 1];
      if ev.key == k && f(k) then Some(if ev.removed then None else Some(ev.param)) else LastFor(f, k, evs[..|evs| - 1])
  }

  lemma {:induction false} ReplayIsLast(f: Key -> bool, k: Key, evs: seq<Ev>, x: View)
    ensures Replay(f, k, evs, x) == x.(val := if LastFor(f, k, evs).Some? then LastFor(f, k, evs).value else x.val)
  {
    if evs != [] { ReplayIsLast(f, k, evs[..|evs| - 1], x); }
  }

  lemma {:induction false} LastParts(f: Key -> bool, k: Key, a: seq<Ev>, b: seq<Ev>)
    ensures LastFor(f, k, a + b) == if LastFor(f, k, b).Some? then LastFor(f, k, b) else LastFor(f, k, a)
  {
    if b == [] {
      assert a + b == a;
    } else {
      assert (a + b)[..|a + b| - 1] == a + b[..|b| - 1];
      LastParts(f, k, a, b[..|b| - 1]);
    }
  }

  lemma LastOne(f: Key -> bool, k: Key, ev: Ev)
    ensures LastFor(f, k, [ev]) == if ev.key == k && f(k) then Some(if ev.removed then None else Some(ev.param)) else None
  {
    assert [ev][..0] == [];
  }

  // ── full syncs in the channel ──

  /** The batches of a full sync are in the channel one after the other up to the last, no key twice, and no delta among them.
      `open`: the broker is in the middle of one; `seen`: it included k. */
  predicate WellFormed(f: Key -> bool, k: Key, chan: seq<Msg>, open: bool, seen: bool)
    decreases |chan|
  {
    (seen ==> open) &&
    if chan == [] then !open
    else
      match chan[0]
      case FullMsg(items, last) =>
        (k in items ==> f(k) && !seen) && WellFormed(f, k, chan[1..], !last, !last && (seen || k in items))
      case DeltaMsg(changes) =>
        !open && (forall ev :: ev in changes ==> f(ev.key)) && WellFormed(f, k, chan[1..], false, false)
  }

  lemma {:induction false} WellFormedLess(f: Key -> bool, k: Key, chan: seq<Msg>, open: bool, seen: bool)
    requires WellFormed(f, k, chan, open, seen)
    ensures WellFormed(f, k, chan, open, false) && WellFormed(f, k, chan, false, false)
    decreases |chan|
  {
    if chan != [] && chan[0].FullMsg? && !chan[0].last {
      WellFormedLess(f, k, chan[1..], true, seen || k in chan[0].items);
    }
  }

  lemma {:induction false} WellFormedMore(f: Key -> bool, k: Key, chan: seq<Msg>, more: seq<Msg>, open: bool, seen: bool)
    requires WellFormed(f, k, chan, open, seen) && WellFormed(f, k, more, false, false)
    ensures WellFormed(f, k, chan + more, open, seen)
    decreases |chan|
  {
    if chan == [] {
      assert chan + more == more;
    } else {
      assert (chan + more)[1..] == chan[1..] + more;
      if chan[0].FullMsg? { WellFormedMore(f, k, chan[1..], more, !chan[0].last, !chan[0].last && (seen || k in chan[0].items)); }
      else { WellFormedMore(f, k, chan[1..], more, false, false); }
    }
  }

  /** The broker's view simulates the predicted one: the same live value, or a cookie that expired on its way was skipped. */
  predicate Sim(a: View, b: View, now: nat) {
    || (a.seen == b.seen && LiveOf(a.val, now) == LiveOf(b.val, now))
    || (!a.seen && b.seen && LiveOf(b.val, now) == None)
  }

  lemma ReplaySim(f: Key -> bool, k: Key, evs: seq<Ev>, a: View, b: View, now: nat)
    requires LiveOf(a.val, now) == LiveOf(b.val, now)
    ensures LiveOf(Replay(f, k, evs, a).val, now) == LiveOf(Replay(f, k, evs, b).val, now)
    ensures Replay(f, k, evs, a).seen == a.seen && Replay(f, k, evs, b).seen == b.seen
  {
    ReplayIsLast(f, k, evs, a);
    ReplayIsLast(f, k, evs, b);
  }

  lemma {:induction false} RunSim(f: Key -> bool, k: Key, chan: seq<Msg>, a: View, b: View, open: bool, now: nat)
    requires WellFormed(f, k, chan, open, b.seen) && Sim(a, b, now)
    ensures LiveOf(Run(f, k, chan, a).val, now) == LiveOf(Run(f, k, chan, b).val, now)
    ensures !Run(f, k, chan, a).seen && !Run(f, k, chan, b).seen
    decreases |chan|
  {
    if chan != [] {
      var m, rest := chan[0], chan[1..];
      assert chan == [m] + rest;
      RunParts(f, k, [m], rest, a);
      RunParts(f, k, [m], rest, b);
      RunOne(f, k, m, a);
      RunOne(f, k, m, b);
      var a1, b1 := MsgStep(f, k, m, a), MsgStep(f, k, m, b);
      if m.DeltaMsg? {
        ReplaySim(f, k, m.changes, a, b, now);
        RunSim(f, k, rest, a1, b1, false, now);
      } else {
        RunSim(f, k, rest, a1, b1, !m.last, now);
      }
    }
  }

  // ── posting ──

  /** What the batches hold of k. */
  function In(batches: seq<Jar>, k: Key): Option<Param>
    decreases |batches|
  {
    if batches == [] then None else if k in batches[0] then Some(batches[0][k]) else In(batches[1..], k)
  }

  lemma {:induction false} InSome(batches: seq<Jar>, k: Key, i: nat)
    requires i < |batches| && k in batches[i]
    ensures In(batches, k).Some?
    decreases |batches|
  {
    if k !in batches[0] { InSome(batches[1..], k, i - 1); }
  }

  lemma {:induction false} InIs(batches: seq<Jar>, k: Key)
    ensures In(batches, k).Some? ==> exists i :: 0 <= i < |batches| && k in batches[i] && In(batches, k) == Some(batches[i][k])
    decreases |batches|
  {
    if batches != [] && k !in batches[0] {
      InIs(batches[1..], k);
      if In(batches, k).Some? {
        var i :| 0 <= i < |batches[1..]| && k in batches[1..][i] && In(batches[1..], k) == Some(batches[1..][i][k]);
        assert batches[i + 1] == batches[1..][i];
      }
    }
  }

  ghost predicate Disjoint(batches: seq<Jar>) {
    forall i, j :: 0 <= i < j < |batches| ==> batches[i].Keys !! batches[j].Keys
  }

  lemma OnlyOnce(batches: seq<Jar>, k: Key)
    requires batches != [] && Disjoint(batches)
    ensures Disjoint(batches[1..]) && (k in batches[0] ==> In(batches[1..], k).None?)
  {
    var rest := batches[1..];
    assert forall i :: 0 <= i < |rest| ==> rest[i] == batches[i + 1];
    InIs(rest, k);
    if k in batches[0] {
      forall i | 0 <= i < |rest| ensures k !in rest[i] { assert batches[0].Keys !! batches[i + 1].Keys; }
    }
  }

  /** The batches of a full sync set k to what they hold of it, and drop it if none holds it. */
  lemma {:induction false} FullsView(f: Key -> bool, k: Key, batches: seq<Jar>, open: bool, x: View)
    requires batches != [] && Disjoint(batches) && (x.seen ==> open)
    requires In(batches, k).Some? ==> f(k) && !x.seen
    ensures WellFormed(f, k, Fulls(batches), open, x.seen)
    ensures Run(f, k, Fulls(batches), x) == View(if In(batches, k).Some? then In(batches,
        k) else if x.seen then x.val else None, false)
    decreases |batches|
  {
    var m, rest := FullMsg(batches[0], |batches| == 1), batches[1..];
    OnlyOnce(batches, k);
    assert Fulls(batches) == [m] + Fulls(rest);
    RunParts(f, k, [m], Fulls(rest), x);
    RunOne(f, k, m, x);
    if rest != [] { FullsView(f, k, rest, true, MsgStep(f, k, m, x)); }
  }

  lemma SplitsView(f: Key -> bool, k: Key, batches: seq<Jar>, jar: Jar, x: View)
    requires Splits(batches, Synced(f, jar)) && !x.seen
    ensures WellFormed(f, k, Fulls(batches), false, false)
    ensures Run(f, k, Fulls(batches), x) == View(if f(k) then Get(jar, k) else None, false)
  {
    var read := Synced(f, jar);
    InIs(batches, k);
    if k in read {
      var i :| 0 <= i < |batches| && k in batches[i];
      InSome(batches, k, i);
    }
    FullsView(f, k, batches, false, x);
  }

  /** Deltas say what their changes say, however they are batched. */
  lemma {:induction false} DeltasView(f: Key -> bool, k: Key, batches: seq<seq<Ev>>, x: View)
    requires !x.seen
    ensures Run(f, k, Deltas(batches), x) == Replay(f, k, Flatten(batches), x)
    decreases |batches|
  {
    if batches != [] {
      var n := |batches| - 1;
      DeltasView(f, k, batches[..n], x);
      ReplayParts(f, k, Flatten(batches[..n]), batches[n], x);
    }
  }

  lemma {:induction false} DeltasWellFormed(f: Key -> bool, k: Key, batches: seq<seq<Ev>>)
    requires forall ev :: ev in Flatten(batches) ==> f(ev.key)
    ensures WellFormed(f, k, Deltas(batches), false, false)
    decreases |batches|
  {
    if batches != [] {
      var n := |batches| - 1;
      DeltasWellFormed(f, k, batches[..n]);
      assert [DeltaMsg(batches[n])][1..] == [];
      WellFormedMore(f, k, Deltas(batches[..n]), [DeltaMsg(batches[n])], false, false);
    }
  }

  // ── the invariant ──

  predicate Open(s: Sys) {
    s.link.Some? && s.link.value in s.imp.staging
  }

  /** What the broker holds of k. */
  function Held(s: Sys, k: Key): View {
    View(Get(s.imp.snapshot, k), Open(s) && k in s.imp.staging[s.link.value].keys)
  }

  /** A full sync posted after the current broker connection asked for one is in the channel or got through, and nothing since was lost. */
  predicate Covered(s: Sys) {
    s.ext.port && s.link.Some? && s.ext.posted == s.link
  }

  function Target(s: Sys, f: Key -> bool, k: Key): Option<Param> {
    if f(k) then Get(s.jar, k) else None
  }

  /** Once everything on its way has arrived, the broker has k as Chrome does. */
  predicate Converging(s: Sys, f: Key -> bool, k: Key) {
    Covered(s) ==>
      LiveOf(Replay(f, k, s.ext.buf + s.events, Run(f, k, s.chan, Held(s, k))).val, s.now) == LiveOf(Target(s, f, k), s.now)
  }

  /** The events still to pass end with Chrome's value: replaying them over a newer read is harmless. */
  predicate EndsNow(s: Sys, f: Key -> bool, k: Key) {
    var last := LastFor(f, k, s.ext.buf + s.events);
    last.Some? ==> last.value == Get(s.jar, k)
  }

  /** The current run's read, with those events over it, is Chrome's value. */
  predicate ReadFresh(s: Sys, f: Key -> bool, k: Key) {
    s.ext.run in s.reading && s.reading[s.ext.run].Some? && f(k) && LastFor(f, k, s.ext.buf + s.events).None? ==>
      Get(s.reading[s.ext.run].value, k) == Get(s.jar, k)
  }

  ghost predicate KeyInv(s: Sys, f: Key -> bool, k: Key) {
    && WellFormed(f, k, s.chan, Open(s), Held(s, k).seen)
    && Converging(s, f, k) && EndsNow(s, f, k) && ReadFresh(s, f, k)
    && (k in s.imp.snapshot ==> k in s.imp.managed)
  }

  /** The removal half of an overwrite has the other half behind it. */
  ghost predicate Halves(events: seq<Ev>) {
    forall i :: 0 <= i < |events| && events[i].removed && events[i].overwrite ==>
      i + 1 < |events| && events[i + 1].key == events[i].key && !events[i + 1].removed
  }

  ghost predicate ExtOk(x: Ext, reading: map<nat, Option<Jar>>, back: seq<nat>, link: Option<nat>, links: nat, f: Key -> bool) {
    && (forall ev :: ev in x.buf ==> f(ev.key))
    && (forall run :: run in reading ==> run <= x.run)
    && (x.run in reading ==> x.port && x.inFlight)
    && (!x.port ==> x.buf == [] && link.None? && x.posted.None?)
    && (x.posted.Some? ==> x.posted.value <= links) && x.gen <= links && (link.Some? ==> link.value == links)
    && (forall g :: g in back ==> g <= links)
  }

  ghost predicate StagingOk(imp: Importer, link: Option<nat>) {
    forall id :: id in imp.staging ==> link == Some(id) && imp.staging[id].overtaken == {}
  }

  ghost predicate Shape(s: Sys, f: Key -> bool) {
    Halves(s.events) && ExtOk(s.ext, s.reading, s.back, s.link, s.links, f) && StagingOk(s.imp, s.link)
  }

  // ── Chrome ──

  lemma TickKeeps(s: Sys, f: Key -> bool, later: nat, k: Key)
    requires KeyInv(s, f, k) && s.now <= later
    ensures KeyInv(s.(now := later), f, k)
  {
    hide WellFormed, Run, Replay;
  }

  /** More events say what Chrome has now. */
  lemma EventsMore(s: Sys, f: Key -> bool, jar: Jar, more: seq<Ev>, k: Key)
    requires KeyInv(s, f, k)
    requires f(k) ==> if LastFor(f, k, more).Some? then LastFor(f, k, more).value == Get(jar, k) else Get(jar, k) == Get(s.jar, k)
    ensures KeyInv(s.(jar := jar, events := s.events + more), f, k)
  {
    hide WellFormed, Run, Replay, LastFor;
    var old1, all := s.ext.buf + s.events, s.ext.buf + (s.events + more);
    assert all == old1 + more;
    LastParts(f, k, old1, more);
    ReplayIsLast(f, k, old1, Run(f, k, s.chan, Held(s, k)));
    ReplayIsLast(f, k, all, Run(f, k, s.chan, Held(s, k)));
    if !f(k) { NotMentioned(f, k, more); NotMentioned(f, k, old1); }
  }

  lemma {:induction false} NotMentioned(f: Key -> bool, k: Key, evs: seq<Ev>)
    requires !f(k)
    ensures LastFor(f, k, evs).None?
  {
    if evs != [] { NotMentioned(f, k, evs[..|evs| - 1]); }
  }

  lemma AddsKeeps(s: Sys, f: Key -> bool, x: Key, p: Param, k: Key)
    requires KeyInv(s, f, k)
    ensures KeyInv(Next(s, f, Adds(x, p)), f, k)
  {
    var pre := if x in s.jar then [Ev(x, true, true, s.jar[x])] else [];
    var add := [Ev(x, false, false, p)];
    LastOne(f, k, Ev(x, false, false, p));
    if x in s.jar { LastOne(f, k, Ev(x, true, true, s.jar[x])); }
    LastParts(f, k, pre, add);
    assert s.events + pre + add == s.events + (pre + add);
    hide WellFormed, Run, Replay, LastFor, KeyInv;
    EventsMore(s, f, s.jar[x := p], pre + add, k);
  }

  lemma RemovesKeeps(s: Sys, f: Key -> bool, x: Key, k: Key)
    requires KeyInv(s, f, k)
    ensures KeyInv(Next(s, f, Removes(x)), f, k)
  {
    if x in s.jar {
      LastOne(f, k, Ev(x, true, false, s.jar[x]));
      hide WellFormed, Run, Replay, LastFor, KeyInv;
      EventsMore(s, f, s.jar - {x}, [Ev(x, true, false, s.jar[x])], k);
    }
  }

  // ── the extension ──

  lemma LastFirst(f: Key -> bool, k: Key, evs: seq<Ev>)
    requires evs != []
    ensures LastFor(f, k, evs) == if LastFor(f, k, evs[1..]).Some? then LastFor(f, k, evs[1..]) else LastFor(f, k, [evs[0]])
  {
    assert evs == [evs[0]] + evs[1..];
    LastParts(f, k, [evs[0]], evs[1..]);
  }

  lemma DeliveredLast(s: Sys, f: Key -> bool, k: Key)
    requires Shape(s, f) && s.events != []
    ensures var s' := Next(s, f, Delivered);
            var was, now := LastFor(f, k, s.ext.buf + s.events), LastFor(f, k, s'.ext.buf + s'.events);
            (s.ext.port ==> now == was) && (now == was || now == None)
  {
    var ev, rest := s.events[0], s.events[1..];
    LastParts(f, k, s.ext.buf, s.events);
    LastFirst(f, k, s.events);
    LastOne(f, k, ev);
    LastParts(f, k, s.ext.buf, rest);
    LastParts(f, k, s.ext.buf + [ev], rest);
    LastParts(f, k, s.ext.buf, [ev]);
    if ev.removed && ev.overwrite {
      assert rest[0].key == ev.key && !rest[0].removed;
      LastFirst(f, k, rest);
      LastOne(f, k, rest[0]);
    }
    hide LastFor;
  }

  lemma DeliveredKeeps(s: Sys, f: Key -> bool, k: Key)
    requires Shape(s, f) && KeyInv(s, f, k) && s.events != []
    ensures KeyInv(Next(s, f, Delivered), f, k)
  {
    var s' := Next(s, f, Delivered);
    assert !s.ext.port ==> s.ext.run !in s.reading;
    hide WellFormed, Run, Replay, LastFor, Shape;
    DeliveredLast(s, f, k);
    ReplayIsLast(f, k, s.ext.buf + s.events, Run(f, k, s.chan, Held(s, k)));
    ReplayIsLast(f, k, s'.ext.buf + s'.events, Run(f, k, s.chan, Held(s, k)));
  }

  /** Nothing that says where k's value is changed; a run may have started. */
  lemma SameWay(s: Sys, s': Sys, f: Key -> bool, k: Key)
    requires KeyInv(s, f, k)
    requires s' == s.(ext := s'.ext, reading := s'.reading, back := s'.back)
    requires s'.ext.buf == s.ext.buf && s'.ext.port == s.ext.port && s'.ext.posted == s.ext.posted
    requires s'.ext.run in s'.reading && s'.reading[s'.ext.run].Some? ==> s'.ext.run == s.ext.run && s.ext.run in s.reading && s'.reading[s.ext.run] == s.reading[s.ext.run]
    ensures KeyInv(s', f, k)
  {
    hide WellFormed, Run, Replay, LastFor;
  }

  lemma ReadTakenKeeps(s: Sys, f: Key -> bool, run: nat, k: Key)
    requires KeyInv(s, f, k) && run in s.reading && s.reading[run].None?
    ensures KeyInv(Next(s, f, ReadTaken(run)), f, k)
  {
    hide WellFormed, Run, Replay, LastFor;
  }

  /** Changes appended to the channel, and then the events to come. */
  lemma SentView(f: Key -> bool, k: Key, chan: seq<Msg>, open: bool, x: View, deltas: seq<seq<Ev>>, events: seq<Ev>, now: nat)
    requires WellFormed(f, k, chan, open, x.seen) && forall ev :: ev in Flatten(deltas) ==> f(ev.key)
    ensures WellFormed(f, k, chan + Deltas(deltas), open, x.seen)
    ensures Replay(f, k, events, Run(f, k, chan + Deltas(deltas), x)) == Replay(f, k, Flatten(deltas) + events, Run(f,
        k, chan, x))
  {
    hide WellFormed, Run, Replay, Deltas, Flatten;
    RunSim(f, k, chan, x, x, open, now);
    DeltasView(f, k, deltas, Run(f, k, chan, x));
    DeltasWellFormed(f, k, deltas);
    WellFormedMore(f, k, chan, Deltas(deltas), open, x.seen);
    RunParts(f, k, chan, Deltas(deltas), x);
    ReplayParts(f, k, Flatten(deltas), events, Run(f, k, chan, x));
  }

  /** A full sync appended to the channel: what came before it does not matter. */
  lemma ReadView(f: Key -> bool, k: Key, chan: seq<Msg>, open: bool, x: View, batches: seq<Jar>, read: Jar, now: nat)
    requires WellFormed(f, k, chan, open, x.seen) && Splits(batches, Synced(f, read))
    ensures WellFormed(f, k, chan + Fulls(batches), open, x.seen)
    ensures Run(f, k, chan + Fulls(batches), x) == View(if f(k) then Get(read, k) else None, false)
  {
    hide WellFormed, Run, Fulls, Splits, Synced;
    RunSim(f, k, chan, x, x, open, now);
    SplitsView(f, k, batches, read, Run(f, k, chan, x));
    WellFormedMore(f, k, chan, Fulls(batches), open, x.seen);
    RunParts(f, k, chan, Fulls(batches), x);
  }

  /** Posting: the read, then the buffered changes, then the events to come. */
  lemma PostedKeeps(s: Sys, f: Key -> bool, run: nat, batches: seq<Jar>, deltas: seq<seq<Ev>>, k: Key)
    requires Shape(s, f) && KeyInv(s, f, k) && Enabled(s, f, ReadDone(run, batches, deltas)) && Posts(s.ext, run)
    ensures KeyInv(Next(s, f, ReadDone(run, batches, deltas)), f, k)
  {
    var read := s.reading[run].value;
    hide WellFormed, Run, Replay, LastFor, Fulls, Deltas, Splits, Synced, Flatten;
    ReadView(f, k, s.chan, Open(s), Held(s, k), batches, read, s.now);
    SentView(f, k, s.chan + Fulls(batches), Open(s), Held(s, k), deltas, s.events, s.now);
    ReplayIsLast(f, k, s.ext.buf + s.events, View(if f(k) then Get(read, k) else None, false));
    LastParts(f, k, s.ext.buf, s.events);
    assert [] + s.events == s.events;
    if !f(k) { NotMentioned(f, k, s.ext.buf + s.events); }
  }

  lemma FlushedKeeps(s: Sys, f: Key -> bool, deltas: seq<seq<Ev>>, k: Key)
    requires Shape(s, f) && KeyInv(s, f, k) && Enabled(s, f, Flushed(deltas))
    ensures KeyInv(Next(s, f, Flushed(deltas)), f, k)
  {
    hide WellFormed, Run, Replay, LastFor, Deltas, Flatten;
    SentView(f, k, s.chan, Open(s), Held(s, k), deltas, s.events, s.now);
    LastParts(f, k, s.ext.buf, s.events);
    assert [] + s.events == s.events;
  }

  // ── connections ──

  lemma LostKeeps(s: Sys, s': Sys, f: Key -> bool, k: Key)
    requires KeyInv(s, f, k) && !Covered(s') && !Open(s') && s'.now == s.now && s'.jar == s.jar && s'.events == s.events
    requires s'.chan == s.chan || s'.chan == []
    requires (s'.ext.buf == s.ext.buf && s'.ext.run == s.ext.run && s'.reading == s.reading) || (s'.ext.buf == [] &&
        s'.ext.run !in s'.reading)
    requires k in s'.imp.snapshot ==> k in s'.imp.managed
    ensures KeyInv(s', f, k)
  {
    WellFormedLess(f, k, s.chan, Open(s), Held(s, k).seen);
    LastParts(f, k, s.ext.buf, s.events);
    assert [] + s.events == s.events;
    LastParts(f, k, s'.ext.buf, s.events);
    hide Run, Replay, LastFor;
  }

  lemma ElseKeeps(s: Sys, f: Key -> bool, imp: Importer, k: Key)
    requires KeyInv(s, f, k) && Elsewhere(s, imp)
    ensures KeyInv(s.(imp := imp), f, k)
  {
    var a, b := Held(s.(imp := imp), k), Held(s, k);
    if s.link.Some? {
      assert Sim(a, b, s.now);
      RunSim(f, k, s.chan, a, b, Open(s), s.now);
      ReplaySim(f, k, s.ext.buf + s.events, Run(f, k, s.chan, a), Run(f, k, s.chan, b), s.now);
    }
    hide WellFormed, Run, Replay, LastFor;
  }

  // ── the broker handles a message ──

  lemma NothingOvertaken(imp: Importer, id: nat, items: Jar)
    requires id in imp.staging ==> imp.staging[id].overtaken == {}
    ensures NotOvertaken(imp, id, items) == items
  {
    assert items - {} == items;
  }

  /** The staging area after a batch. */
  lemma FullStaging(imp: Importer, id: nat, items: Jar, last: bool, up: bool)
    ensures var st := Full(imp, id, items, last, up).staging;
            if last then st == imp.staging - {id}
            else st == imp.staging[id := Staging(StagingOf(imp, id).keys + NotOvertaken(imp, id, items).Keys,
                StagingOf(imp, id).overtaken)]
  {
    hide NotOvertaken, Identities, StagingOf, LeftOut;
    if last {
      var s1 := SetSynced(imp, NotOvertaken(imp, id, items));
      assert s1.staging == imp.staging;
      hide Forget;
      ForgetStaging(s1.(staging := s1.staging - {id}), LeftOut(imp, id, items)) by { LeftOutManaged(imp, id, items); }
    }
  }

  lemma LeftOutManaged(imp: Importer, id: nat, items: Jar)
    ensures LeftOut(imp, id, items) <= SetSynced(imp, NotOvertaken(imp, id, items)).managed.Keys
  {
    hide SetSynced, NotOvertaken, StagingOf;
  }

  lemma ForgetStaging(imp: Importer, gone: set<Key>)
    requires gone <= imp.managed.Keys
    ensures Forget(imp, gone, map[]).staging == imp.staging
  {
  }

  lemma LeftOutIs(imp: Importer, id: nat, items: Jar, k: Key)
    requires NotOvertaken(imp, id, items) == items
    ensures k in LeftOut(imp, id, items) <==> k in imp.managed && k !in StagingOf(imp, id).keys && k !in items
  {
    hide NotOvertaken, StagingOf;
  }

  /** What a batch does to one key. */
  lemma FullAt(imp: Importer, id: nat, items: Jar, last: bool, up: bool, k: Key)
    requires (id in imp.staging ==> imp.staging[id].overtaken == {}) && (k in imp.snapshot ==> k in imp.managed)
    ensures
      var imp', staged := Full(imp, id, items, last, up), k in StagingOf(imp, id).keys;
      && Get(imp'.snapshot, k) == (if k in items then Some(items[k]) else if last && !staged then None else Get(imp.snapshot, k))
      && (k in imp'.snapshot ==> k in imp'.managed)
      && (id in imp'.staging <==> !last)
      && (!last ==> (k in imp'.staging[id].keys <==> staged || k in items) && imp'.staging[id].overtaken == {})
  {
    NothingOvertaken(imp, id, items);
    hide Full, LeftOut, NotOvertaken;
    FullHandles(imp, id, items, last, up, k);
    FullStaging(imp, id, items, last, up);
    LeftOutIs(imp, id, items, k);
  }

  lemma UnexpiredAt(items: Jar, now: nat, k: Key)
    ensures Get(Unexpired(items, now), k) == if k in items && !IsExpired(items[k], now) then Some(items[k]) else None
  {
    hide IsExpired;
  }

  lemma HeadIs(s: Sys, f: Key -> bool, k: Key)
    requires Shape(s, f) && KeyInv(s, f, k) && s.link.Some? && s.chan != [] && s.chan[0].FullMsg?
    ensures s.link.value in s.imp.staging ==> s.imp.staging[s.link.value].overtaken == {}
    ensures k in s.imp.snapshot ==> k in s.imp.managed
    ensures (Held(s, k).seen ==> Open(s)) && (k in s.chan[0].items ==> !Held(s, k).seen)
  {
    hide Converging, EndsNow, ReadFresh, ExtOk, Halves;
  }

  /** A batch does to k what its view step says, but for a cookie that expired on its way. */
  lemma FullHeld(s: Sys, f: Key -> bool, k: Key, up: bool)
    requires Shape(s, f) && KeyInv(s, f, k) && s.link.Some? && s.chan != [] && s.chan[0].FullMsg?
    ensures
      var m := s.chan[0];
      var s' := s.(imp := Received(s.imp, s.link.value, m, {}, up, s.now));
      && Sim(Held(s', k), MsgStep(f, k, m, Held(s, k)), s.now) && Open(s') == !m.last
      && (k in s'.imp.snapshot ==> k in s'.imp.managed)
  {
    hide Full, Unexpired, IsExpired, KeyInv, Shape;
    var m, id := s.chan[0], s.link.value;
    HeadIs(s, f, k);
    FullAt(s.imp, id, Unexpired(m.items, s.now), m.last, up, k);
    UnexpiredAt(m.items, s.now, k);
  }

  lemma {:induction false} LastPerKeyIs(f: Key -> bool, k: Key, changes: seq<Ev>)
    requires f(k)
    ensures k in LastPerKey(changes) <==> LastFor(f, k, changes).Some?
    ensures k in LastPerKey(changes) ==>
              var ev := LastPerKey(changes)[k];
              LastFor(f, k, changes).value == if ev.removed then None else Some(ev.param)
  {
    if changes != [] { LastPerKeyIs(f, k, changes[..|changes| - 1]); }
  }

  lemma {:induction false} KeysOfChanges(k: Key, changes: seq<Ev>)
    requires k in LastPerKey(changes)
    ensures exists ev :: ev in changes && ev.key == k
  {
    var n := |changes| - 1;
    if changes[n].key == k {
      assert changes[n] in changes;
    } else {
      KeysOfChanges(k, changes[..n]);
      var ev :| ev in changes[..n] && ev.key == k;
      assert ev in changes;
    }
  }

  /** What a delta does to one key. */
  lemma DeltaAt(imp: Importer, ch: map<Key, Change>, up: bool, k: Key)
    requires imp.staging == map[] && (k in imp.snapshot ==> k in imp.managed)
    ensures
      var imp' := Delta(imp, ch, up);
      && Get(imp'.snapshot, k) == (if k !in ch then Get(imp.snapshot, k) else if ch[k].removed then None else Some(ch[k].param))
      && (k in imp'.snapshot ==> k in imp'.managed) && imp'.staging == map[]
  {
    assert Delta(imp, ch, up).staging.Keys == imp.staging.Keys;
    assert k in Added(ch) <==> k in ch && !ch[k].removed;
    assert k in Added(ch) ==> Added(ch)[k] == ch[k].param;
    assert k in Removed(ch) <==> k in ch && ch[k].removed;
    hide Delta, Added, Removed;
    DeltaHandles(imp, ch, up, k);
  }

  lemma AcceptedAt(changes: seq<Ev>, refused: set<Key>, now: nat, k: Key)
    ensures var ch := Accepted(changes, refused, now);
            && (k in ch <==> k in LastPerKey(changes) && k !in refused)
            && (k in ch ==> ch[k] == Change(LastPerKey(changes)[k].removed ||
                IsExpired(LastPerKey(changes)[k].param, now), LastPerKey(changes)[k].param))
  {
    hide LastPerKey, IsExpired;
  }

  /** Only the removal of a cookie the broker does not manage may be refused. */
  ghost predicate MayRefuse(imp: Importer, changes: seq<Ev>, refused: set<Key>) {
    forall k :: k in refused ==> k !in imp.managed && k in LastPerKey(changes) && LastPerKey(changes)[k].removed
  }

  lemma ChangesView(f: Key -> bool, k: Key, changes: seq<Ev>, x: View)
    requires forall ev :: ev in changes ==> f(ev.key)
    ensures Replay(f, k, changes, x) ==
            if k in LastPerKey(changes) then x.(val := if LastPerKey(changes)[k].removed then None else Some(LastPerKey(changes)[k].param)) else x
  {
    ReplayIsLast(f, k, changes, x);
    if f(k) {
      LastPerKeyIs(f, k, changes);
    } else {
      NotMentioned(f, k, changes);
      if k in LastPerKey(changes) { KeysOfChanges(k, changes); }
    }
  }

  lemma DeltaHeld(imp: Importer, f: Key -> bool, k: Key, changes: seq<Ev>, refused: set<Key>, up: bool, now: nat)
    requires imp.staging == map[] && (k in imp.snapshot ==> k in imp.managed) && MayRefuse(imp, changes, refused)
    requires forall ev :: ev in changes ==> f(ev.key)
    ensures
      var imp', x := Delta(imp, Accepted(changes, refused, now), up), View(Get(imp.snapshot, k), false);
      && LiveOf(Get(imp'.snapshot, k), now) == LiveOf(Replay(f, k, changes, x).val, now) && !Replay(f, k, changes, x).seen
      && (k in imp'.snapshot ==> k in imp'.managed) && imp'.staging == map[]
  {
    hide Delta, Accepted, LastPerKey, Replay, IsExpired;
    ChangesView(f, k, changes, View(Get(imp.snapshot, k), false));
    AcceptedAt(changes, refused, now, k);
    DeltaAt(imp, Accepted(changes, refused, now), up, k);
  }

  lemma NoStaging(s: Sys, f: Key -> bool)
    requires Shape(s, f) && !Open(s)
    ensures s.imp.staging == map[]
  {
    assert forall id :: id in s.imp.staging ==> s.link == Some(id);
  }

  /** The channel's head is handled: what the broker holds then leads where it was predicted to. */
  lemma HeadHandled(s: Sys, s': Sys, f: Key -> bool, k: Key)
    requires KeyInv(s, f, k) && s.chan != [] && s.link.Some?
    requires s' == s.(chan := s.chan[1..], imp := s'.imp)
    requires Sim(Held(s', k), MsgStep(f, k, s.chan[0], Held(s, k)), s.now)
    requires Open(s') == (s.chan[0].FullMsg? && !s.chan[0].last)
    requires k in s'.imp.snapshot ==> k in s'.imp.managed
    ensures KeyInv(s', f, k)
  {
    var m, rest, x := s.chan[0], s.chan[1..], Held(s, k);
    var y := MsgStep(f, k, m, x);
    assert WellFormed(f, k, rest, Open(s'), y.seen) by {
      if m.DeltaMsg? { ReplayIsLast(f, k, m.changes, x); }
    }
    WellFormedLess(f, k, rest, Open(s'), y.seen);
    hide WellFormed, Run, Replay, LastFor, MsgStep;
    assert s.chan == [m] + rest;
    RunParts(f, k, [m], rest, x);
    RunOne(f, k, m, x);
    RunSim(f, k, rest, Held(s', k), y, Open(s'), s.now);
    ReplaySim(f, k, s.ext.buf + s.events, Run(f, k, rest, Held(s', k)), Run(f, k, rest, y), s.now);
  }

  lemma UnlinkedKeeps(s: Sys, f: Key -> bool, refused: set<Key>, up: bool, k: Key)
    requires Shape(s, f) && KeyInv(s, f, k) && Enabled(s, f, Handled(refused, up)) && s.link.None?
    ensures KeyInv(Next(s, f, Handled(refused, up)), f, k)
  {
    hide Run, Replay, LastFor, Shape;
    WellFormedLess(f, k, s.chan, Open(s), Held(s, k).seen);
    WellFormedLess(f, k, s.chan[1..], s.chan[0].FullMsg? && !s.chan[0].last, s.chan[0].FullMsg? && !s.chan[0].last &&
        k in s.chan[0].items);
  }

  lemma HandledKeeps(s: Sys, f: Key -> bool, refused: set<Key>, up: bool, k: Key)
    requires Shape(s, f) && KeyInv(s, f, k) && Enabled(s, f, Handled(refused, up))
    ensures KeyInv(Next(s, f, Handled(refused, up)), f, k)
  {
    var s' := Next(s, f, Handled(refused, up));
    if s.link.None? {
      UnlinkedKeeps(s, f, refused, up, k);
    } else if s.chan[0].FullMsg? {
      FullHeld(s, f, k, up);
      hide KeyInv, Full, MsgStep, Unexpired, Shape;
      HeadHandled(s, s', f, k);
    } else {
      var changes := s.chan[0].changes;
      assert !Open(s) && MayRefuse(s.imp, changes, refused);
      NoStaging(s, f);
      assert (k in s.imp.snapshot ==> k in s.imp.managed) && forall ev :: ev in changes ==> f(ev.key);
      hide KeyInv, Delta, Replay, Accepted, Shape, MayRefuse;
      DeltaHeld(s.imp, f, k, changes, refused, up, s.now);
      HeadHandled(s, s', f, k);
    }
  }

  // ── every step ──

  lemma KeyKept(s: Sys, f: Key -> bool, a: Step, k: Key)
    requires Shape(s, f) && KeyInv(s, f, k) && Enabled(s, f, a)
    ensures KeyInv(Next(s, f, a), f, k)
  {
    var s' := Next(s, f, a);
    assert KeyInv(s, f, k) ==> (k in s.imp.snapshot ==> k in s.imp.managed);
    hide KeyInv, Received, Splits;
    match a
    case Tick(later) => TickKeeps(s, f, later, k);
    case Adds(x, p) => AddsKeeps(s, f, x, p, k);
    case Removes(x) => RemovesKeeps(s, f, x, k);
    case Delivered => DeliveredKeeps(s, f, k);
    case FullAsked => SameWay(s, s', f, k);
    case ReadTaken(run) => ReadTakenKeeps(s, f, run, k);
    case ReadFailed(run) => SameWay(s, s', f, k);
    case ReadDone(run, batches, deltas) => if Posts(s.ext, run) { PostedKeeps(s, f, run, batches, deltas,
        k); } else { SameWay(s, s', f, k); }
    case Flushed(deltas) => FlushedKeeps(s, f, deltas, k);
    case Handled(refused, up) => HandledKeeps(s, f, refused, up, k);
    case LinkUp => LostKeeps(s, s', f, k);
    case LinkDown => LostKeeps(s, s', f, k);
    case ResyncSeen => SameWay(s, s', f, k);
    case PortUp => LostKeeps(s, s', f, k);
    case PortLost => LostKeeps(s, s', f, k);
    case BrokerElse(imp) => ElseKeeps(s, f, imp, k);
  }

  lemma DeltaStagingKept(imp: Importer, ch: map<Key, Change>, up: bool)
    requires imp.staging == map[]
    ensures Delta(imp, ch, up).staging == map[]
  {
    DeltaAtNone(imp, ch, up);
  }

  lemma DeltaAtNone(imp: Importer, ch: map<Key, Change>, up: bool)
    ensures Delta(imp, ch, up).staging.Keys == imp.staging.Keys
  {
  }

  lemma FullStagingOk(imp: Importer, id: nat, items: Jar, last: bool, up: bool)
    requires StagingOk(imp, Some(id))
    ensures StagingOk(Full(imp, id, items, last, up), Some(id))
  {
    assert StagingOf(imp, id).overtaken == {};
    hide Full, NotOvertaken, StagingOf;
    FullStaging(imp, id, items, last, up);
  }

  lemma DeltaStagingOk(imp: Importer, ch: map<Key, Change>, up: bool, link: Option<nat>)
    requires imp.staging == map[]
    ensures StagingOk(Delta(imp, ch, up), link)
  {
    hide Delta;
    DeltaStagingKept(imp, ch, up);
  }

  lemma HandledShape(s: Sys, f: Key -> bool, refused: set<Key>, up: bool)
    requires Shape(s, f) && KeyInv(s, f, "") && Enabled(s, f, Handled(refused, up))
    ensures Shape(Next(s, f, Handled(refused, up)), f)
  {
    if s.link.Some? && s.chan[0].DeltaMsg? {
      assert !Open(s);
      NoStaging(s, f);
    }
    hide ExtOk, Halves, StagingOk, Full, Delta, Unexpired, Accepted, KeyInv;
    if s.link.Some? {
      if s.chan[0].FullMsg? {
        FullStagingOk(s.imp, s.link.value, Unexpired(s.chan[0].items, s.now), s.chan[0].last, up);
      } else {
        DeltaStagingOk(s.imp, Accepted(s.chan[0].changes, refused, s.now), up, s.link);
      }
    }
  }

  predicate AtChrome(a: Step) {
    a.Tick? || a.Adds? || a.Removes? || a.Delivered?
  }

  predicate AtExtension(a: Step) {
    a.FullAsked? || a.ReadTaken? || a.ReadFailed? || a.ReadDone? || a.Flushed? || a.ResyncSeen?
  }

  lemma ChromeShape(s: Sys, f: Key -> bool, a: Step)
    requires Shape(s, f) && Enabled(s, f, a) && AtChrome(a)
    ensures Shape(Next(s, f, a), f)
  {
    hide StagingOk;
  }

  lemma ExtensionShape(s: Sys, f: Key -> bool, a: Step)
    requires Shape(s, f) && Enabled(s, f, a) && AtExtension(a)
    ensures Shape(Next(s, f, a), f)
  {
    hide Splits, Deltas, Fulls, Flatten, Synced, StagingOk, Halves;
    if a.ResyncSeen? {
      assert s.back[0] in s.back;
      assert forall g :: g in s.back[1..] ==> g in s.back;
    }
  }

  lemma ShapeKept(s: Sys, f: Key -> bool, a: Step)
    requires Shape(s, f) && KeyInv(s, f, "") && Enabled(s, f, a)
    ensures Shape(Next(s, f, a), f)
  {
    if a.Handled? {
      hide *;
      HandledShape(s, f, a.refused, a.up);
    } else if AtChrome(a) {
      hide *;
      ChromeShape(s, f, a);
    } else if AtExtension(a) {
      hide *;
      ExtensionShape(s, f, a);
    } else {
      hide KeyInv, Received, Splits, Deltas, Fulls, Flatten;
    }
  }

  ghost predicate Inv(s: Sys, f: Key -> bool) {
    Shape(s, f) && forall k :: KeyInv(s, f, k)
  }

  lemma InvKept(s: Sys, f: Key -> bool, a: Step)
    requires Inv(s, f) && Enabled(s, f, a)
    ensures Inv(Next(s, f, a), f)
  {
    hide Shape, KeyInv, Next, Enabled;
    ShapeKept(s, f, a);
    forall k ensures KeyInv(Next(s, f, a), f, k) { KeyKept(s, f, a, k); }
  }

  ghost predicate Reaches(s0: Sys, f: Key -> bool, steps: seq<Step>, s: Sys)
    decreases |steps|
  {
    if steps == [] then s == s0 else Enabled(s0, f, steps[0]) && Reaches(Next(s0, f, steps[0]), f, steps[1..], s)
  }

  /** Chrome has some cookies, nothing is connected, and the broker holds what it may hold. */
  ghost predicate Init(s: Sys) {
    && s.events == [] && s.ext == Ext(false, 0, false, [], 0, None) && s.reading == map[] && s.chan == [] && s.back == []
    && s.link == None && s.links == 0 && s.imp.staging == map[] && s.imp.snapshot.Keys <= s.imp.managed.Keys
  }

  lemma InitHolds(s: Sys, f: Key -> bool)
    requires Init(s)
    ensures Inv(s, f)
  {
    forall k ensures KeyInv(s, f, k) {
      assert WellFormed(f, k, s.chan, Open(s), Held(s, k).seen);
    }
  }

  lemma {:induction false} RunHolds(s0: Sys, f: Key -> bool, steps: seq<Step>, s: Sys)
    requires Inv(s0, f) && Reaches(s0, f, steps, s)
    ensures Inv(s, f)
    decreases |steps|
  {
    if steps != [] {
      InvKept(s0, f, steps[0]);
      hide Inv;
      RunHolds(Next(s0, f, steps[0]), f, steps[1..], s);
    }
  }

  /** After any interleaving of Chrome's changes, late events, full reads, superseding resyncs and lost connections: once the
      latest full sync got through and nothing is on its way, the broker's unexpired cookies are exactly the unexpired cookies
      of Chrome that sync, at their current values. */
  lemma Converges(s0: Sys, f: Key -> bool, steps: seq<Step>, s: Sys, k: Key)
    requires Init(s0) && Reaches(s0, f, steps, s)
    requires Covered(s) && s.chan == [] && s.ext.buf == [] && s.events == []
    ensures LiveOf(Get(s.imp.snapshot, k), s.now) == LiveOf(if f(k) then Get(s.jar, k) else None, s.now)
  {
    InitHolds(s0, f);
    RunHolds(s0, f, steps, s);
    assert KeyInv(s, f, k);
    assert s.ext.buf + s.events == [];
  }
}
