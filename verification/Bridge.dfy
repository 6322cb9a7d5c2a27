// The extension's side of the bridge, updated in place by Chrome's events and the
// native host's messages (extensions/cookie-bridge/bridge-core.js createBridge).
module BridgeClass {
  import opened Cookies
  import opened BridgeSteps
  import opened Batching

  const MAX_BATCH_BYTES := 262144

  /** The entries that sync, in order. */
  function Wire(f: Key -> bool, all: seq<Entry>): (wire: seq<Entry>)
    ensures forall i :: 0 <= i < |wire| ==> f(wire[i].0) && wire[i] in all
  {
    if all == [] then [] else Wire(f, all[..|all| - 1]) + (if f(all[|all| - 1].0) then [all[|all| - 1]] else [])
  }

  lemma WireThen(f: Key -> bool, all: seq<Entry>, e: Entry)
    ensures Wire(f, all + [e]) == Wire(f, all) + (if f(e.0) then [e] else [])
  {
    assert (all + [e])[..|all|] == all;
  }

  lemma {:induction false} WireHas(f: Key -> bool, all: seq<Entry>, i: nat)
    requires i < |all| && f(all[i].0)
    ensures all[i] in Wire(f, all)
  {
    var n := |all| - 1;
    if i < n {
      assert all[..n][i] == all[i];
      WireHas(f, all[..n], i);
    }
  }

  lemma {:induction false} WireDistinct(f: Key -> bool, all: seq<Entry>)
    requires Distinct(all)
    ensures Distinct(Wire(f, all))
  {
    if all != [] {
      WireDistinct(f, all[..|all| - 1]);
    }
  }

  lemma WireAt(f: Key -> bool, all: seq<Entry>, k: Key)
    requires Distinct(all) && Distinct(Wire(f, all))
    ensures k in JarOf(Wire(f, all)) <==> k in JarOf(all) && f(k)
    ensures k in JarOf(Wire(f, all)) ==> JarOf(Wire(f, all))[k] == JarOf(all)[k]
  {
    var wire := Wire(f, all);
    if i :| 0 <= i < |wire| && wire[i].0 == k {
      var j :| 0 <= j < |all| && all[j] == wire[i];
      JarHolds(wire, i);
      JarHolds(all, j);
    } else if k in JarOf(all) && f(k) {
      var i :| 0 <= i < |all| && all[i].0 == k;
      WireHas(f, all, i);
    }
  }

  /** What goes out is what Chrome read, restricted to what syncs. */
  lemma WireSyncs(f: Key -> bool, all: seq<Entry>)
    requires Distinct(all)
    ensures Distinct(Wire(f, all)) && JarOf(Wire(f, all)) == Synced(f, JarOf(all))
  {
    WireDistinct(f, all);
    hide Wire, JarOf, Distinct;
    forall k ensures k in JarOf(Wire(f, all)) <==> k in JarOf(all) && f(k)
    {
      WireAt(f, all, k);
    }
    forall k | k in JarOf(Wire(f, all)) ensures JarOf(Wire(f, all))[k] == JarOf(all)[k] {
      WireAt(f, all, k);
    }
  }

  lemma OneBatch(buf: seq<Ev>)
    ensures Flatten([buf]) == buf && Flatten<Ev>([]) == [] && Deltas([]) == []
  {
    assert [buf][..0] == [] && Flatten<Ev>([]) == [];
  }

  class Bridge {
    const syncs: Key -> bool
    const cookieSize: Entry -> nat
    const changeSize: Ev -> nat
    var approved: bool
    var paused: bool
    var stopped: bool
    var port: bool
    var fullRun: nat
    var fullInFlight: bool
    var deltaBuf: seq<Ev>
    var pendingAcks: map<nat, bool>
    var seqNo: nat
    // what postMessage took
    var outbox: seq<Msg>
    ghost var gen: nat
    ghost var posted: Option<nat>

    constructor (syncs: Key -> bool, cookieSize: Entry -> nat, changeSize: Ev -> nat, approved: bool, paused: bool)
      ensures this.syncs == syncs && Valid() && View() == Ext(false, 0, false, [], 0, None) && outbox == []
    {
      this.syncs, this.cookieSize, this.changeSize := syncs, cookieSize, changeSize;
      this.approved, this.paused, stopped := approved, paused, false;
      port, fullRun, fullInFlight, deltaBuf, pendingAcks, seqNo, outbox, gen, posted := false, 0, false, [], map[], 0,
          [], 0, None;
    }

    ghost function View(): Ext
      reads this
    {
      Ext(port, fullRun, fullInFlight, deltaBuf, gen, posted)
    }

    /** No message number is used twice while its ack is awaited. */
    ghost predicate Valid()
      reads this
    {
      forall s :: s in pendingAcks ==> 1 <= s <= seqNo
    }

    predicate Active()
      reads this
    {
      approved && !paused && !stopped
    }

    method OnCookieChanged(ev: Ev)
      requires Valid()
      modifies `deltaBuf
      ensures Valid()
      ensures View() == if Active() then OnChanged(syncs, old(View()), ev) else old(View())
    {
      if stopped || !approved { return; }
      if !syncs(ev.key) { return; }
      if paused || !port { return; }
      if ev.removed && ev.overwrite { return; }
      deltaBuf := deltaBuf + [ev];
    }

    method Disconnect()
      requires Valid()
      modifies `port, `fullRun, `fullInFlight, `pendingAcks, `deltaBuf, `posted
      ensures Valid() && View() == Disconnected(old(View())) && pendingAcks == map[]
    {
      port := false;
      fullRun := fullRun + 1;
      fullInFlight := false;
      pendingAcks := map[];
      deltaBuf := [];
      posted := None;
    }

    method OnAck(s: nat)
      requires Valid()
      modifies `pendingAcks
      ensures Valid() && pendingAcks == old(pendingAcks) - {s}
    {
      pendingAcks := pendingAcks - {s};
    }

    /** The native host asks for everything again. The run's number, if a run starts. */
    method BeginFullSync(ghost request: nat) returns (run: Option<nat>)
      requires Valid()
      modifies `fullRun, `fullInFlight, `gen
      ensures Valid()
      ensures run == if port && approved && !paused then Some(fullRun) else None
      ensures View() == if approved && !paused then RunStarts(old(View()), request) else old(View())
    {
      if !port || !approved || paused { return None; }
      fullRun := fullRun + 1;
      fullInFlight := true;
      gen := request;
      run := Some(fullRun);
    }

    /** `works`: postMessage takes it; otherwise the port is lost. */
    method Post(m: Msg, last: bool, works: bool) returns (ok: bool)
      requires Valid()
      modifies this
      ensures Valid() && ok == (old(port) && works)
      ensures ok ==> View() == old(View()) && outbox == old(outbox) + [m]
      ensures ok ==> seqNo == old(seqNo) + 1 && pendingAcks == old(pendingAcks)[seqNo := last]
      ensures old(port) && !ok ==> View() == Disconnected(old(View())) && pendingAcks == map[]
      ensures !ok ==> outbox == old(outbox)
      ensures approved == old(approved) && paused == old(paused) && stopped == old(stopped)
    {
      seqNo := seqNo + 1;
      pendingAcks := pendingAcks[seqNo := last];
      if !port { return false; }
      if works {
        outbox := outbox + [m];
      } else {
        Disconnect();
      }
      ok := works;
    }

    /** Posts these in order until one fails; `budget` of them work. */
    method PostAll(msgs: seq<Msg>, budget: nat) returns (ok: bool)
      requires Valid() && port
      modifies this
      ensures Valid() && ok == (|msgs| <= budget)
      ensures ok ==> View() == old(View()) && outbox == old(outbox) + msgs && seqNo == old(seqNo) + |msgs|
      ensures !ok ==> View() == Disconnected(old(View())) && outbox == old(outbox) + msgs[..budget] && pendingAcks == map[]
      ensures approved == old(approved) && paused == old(paused) && stopped == old(stopped)
    {
      for i := 0 to |msgs|
        invariant Valid() && View() == old(View()) && i <= budget
        invariant outbox == old(outbox) + msgs[..i] && seqNo == old(seqNo) + i
        invariant approved == old(approved) && paused == old(paused) && stopped == old(stopped)
      {
        var last := msgs[i].FullMsg? && msgs[i].last;
        var posted := Post(msgs[i], last, i < budget);
        if !posted { return false; }
      }
      ok := true;
    }

    /** The buffered changes go out in order, split into batches. */
    method FlushDeltas(budget: nat) returns (ghost deltas: seq<seq<Ev>>, ok: bool)
      requires Valid()
      modifies this
      ensures Valid()
      ensures !(old(port) && !old(fullInFlight) && old(deltaBuf) != []) ==> ok && deltas == [] && View() == old(View()) && outbox == old(outbox)
      ensures old(port) && !old(fullInFlight) && old(deltaBuf) != [] ==>
        && Flatten(deltas) == old(deltaBuf) && Greedy(deltas, changeSize, MAX_BATCH_BYTES) && ok == (|Deltas(deltas)| <= budget)
        && (ok ==> View() == old(View()).(buf := []) && outbox == old(outbox) + Deltas(deltas))
        && (!ok ==> View() == Disconnected(old(View())) && outbox == old(outbox) + Deltas(deltas)[..budget])
      ensures approved == old(approved) && paused == old(paused) && stopped == old(stopped)
    {
      hide Deltas, Flatten, Greedy;
      deltas, ok := [], true;
      if !port || fullInFlight || deltaBuf == [] { return; }
      var changes := deltaBuf;
      deltaBuf := [];
      var batches := Batch(changes, changeSize, MAX_BATCH_BYTES);
      deltas := batches;
      ok := PostAll(Deltas(batches), budget);
    }

    /** What the run read, split into batches and posted; then the changes buffered while it read. */
    method EndFullSync(run: nat, all: Option<seq<Entry>>, budget: nat) returns (ghost batches: seq<Jar>,
        ghost deltas: seq<seq<Ev>>, ok: bool)
      requires Valid() && (all.Some? ==> Distinct(all.value))
      modifies this
      ensures Valid()
      ensures !(all.Some? && Posts(old(View()), run) && !old(stopped)) ==>
        View() == RunFails(old(View()), run) && outbox == old(outbox) && ok
      ensures all.Some? && Posts(old(View()), run) && !old(stopped) ==>
        var msgs := Fulls(batches) + Deltas(deltas);
        && Splits(batches, Synced(syncs, JarOf(all.value))) && Flatten(deltas) == old(deltaBuf)
        && (ok ==> View() == old(View()).(inFlight := false, buf := [], posted := Some(gen)) && outbox == old(outbox) + msgs)
        && (!ok ==> View() == Disconnected(old(View())) && old(outbox) <= outbox < old(outbox) + msgs)
    {
      hide Deltas, Flatten, Greedy, Splits, Synced, Fulls;
      batches, deltas, ok := [], [], true;
      if all.None? || run != fullRun || !port || stopped {
        if run == fullRun { fullInFlight := false; }
        return;
      }
      var cut := CutRead(all.value);
      batches := JarsOf(cut);
      ghost var fulls, buf := Fulls(batches), deltaBuf;
      ok := PostAll(Fulls(JarsOf(cut)), budget);
      if !ok {
        deltas := [buf];
        OneBatch(buf);
        assert outbox == old(outbox) + (fulls + Deltas(deltas))[..budget] && budget < |fulls + Deltas(deltas)|;
        return;
      }
      fullInFlight := false;
      posted := Some(gen);
      OneBatch([]);
      deltas, ok := FlushDeltas(budget - |cut|);
      if !ok {
        assert (fulls + Deltas(deltas))[..|fulls| + (budget - |cut|)] == fulls + Deltas(deltas)[..budget - |cut|];
      }
    }

    /** The cookies read that sync, split into batches; one empty batch when there is none. */
    method CutRead(all: seq<Entry>) returns (batches: seq<seq<Entry>>)
      requires Distinct(all)
      ensures Splits(JarsOf(batches), Synced(syncs, JarOf(all)))
      ensures batches == [[]] || Greedy(batches, cookieSize, MAX_BATCH_BYTES)
    {
      hide Splits, Synced, Greedy;
      var wire: seq<Entry> := [];
      assert Wire(syncs, all[..0]) == [];
      for i := 0 to |all|
        invariant wire == Wire(syncs, all[..i])
      {
        assert all[..i + 1] == all[..i] + [all[i]];
        WireThen(syncs, all[..i], all[i]);
        if syncs(all[i].0) { wire := wire + [all[i]]; }
      }
      assert all[..|all|] == all;
      batches := Batch(wire, cookieSize, MAX_BATCH_BYTES);
      if |batches| == 0 { batches := batches + [[]]; }
      WireSyncs(syncs, all);
      BatchesSplit(batches, wire);
    }
  }
}
