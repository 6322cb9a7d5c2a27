// A full sync merges with the deltas that arrive while it is being sent
// (src/cookie-bridge/importer.js full, delta).
module MergeLaw {
  import opened Cookies
  import opened ImporterState
  import opened ReplicationProofs

  /** What happens to the broker during the full sync of one bridge. `Quiet`: anything that neither syncs nor forgets a cookie. */
  datatype Event =
    | Batch(items: map<Key, Param>, up: bool)
    | Deltas(changes: map<Key, Change>, up: bool)
    | Quiet(after: Importer)

  /** The latest delta about k. */
  ghost function LastDelta(evs: seq<Event>, k: Key): Option<Change> {
    if evs == [] then None
    else
      var e := evs[|evs| - 1];
      if e.Deltas? && k in e.changes then Some(e.changes[k]) else LastDelta(evs[..|evs| - 1], k)
  }

  /** What the latest batch with k says. */
  ghost function LastRead(evs: seq<Event>, k: Key): Option<Param> {
    if evs == [] then None
    else
      var e := evs[|evs| - 1];
      if e.Batch? && k in e.items then Some(e.items[k]) else LastRead(evs[..|evs| - 1], k)
  }

  /** What the sync leaves of k: the latest delta about it decides, and without one the batches. */
  ghost function Merged(evs: seq<Event>, k: Key): Option<Param> {
    match LastDelta(evs, k)
    case Some(c) => if c.removed then None else Some(c.param)
    case None => LastRead(evs, k)
  }

  ghost predicate IsQuiet(s: Importer, s': Importer, id: nat) {
    && s'.managed == s.managed && s'.snapshot == s.snapshot
    && (id in s'.staging <==> id in s.staging) && (id in s.staging ==> s'.staging[id] == s.staging[id])
  }

  ghost function After(s: Importer, id: nat, e: Event, last: bool): Importer {
    match e
    case Batch(items, up) => Full(s, id, items, last, up)
    case Deltas(changes, up) => Delta(s, changes, up)
    case Quiet(after) => after
  }

  /** The run of these events from s0, none of them the last batch, ends in s. */
  ghost predicate Syncing(s0: Importer, id: nat, evs: seq<Event>, s: Importer)
    decreases |evs|
  {
    if evs == [] then s == s0
    else
      var n := |evs| - 1;
      exists m :: Syncing(s0, id, evs[..n], m) && s == After(m, id, evs[n], false) && (evs[n].Quiet? ==> IsQuiet(m, s, id))
  }

  /** The broker's record of the sync so far, about k. */
  ghost predicate RecordOf(s: Importer, id: nat, evs: seq<Event>, k: Key) {
    && id in s.staging
    && (k in s.staging[id].overtaken <==> LastDelta(evs, k).Some?)
    && (k in s.staging[id].keys <==> Merged(evs, k).Some?)
    && (Merged(evs, k).Some? ==> k in s.managed && k in s.snapshot && s.snapshot[k] == Merged(evs, k).value)
    && (LastDelta(evs, k).Some? && Merged(evs, k).None? ==> k !in s.managed)
  }

  lemma MergedThen(evs: seq<Event>, e: Event, k: Key)
    ensures LastDelta(evs + [e], k) == if e.Deltas? && k in e.changes then Some(e.changes[k]) else LastDelta(evs, k)
    ensures LastRead(evs + [e], k) == if e.Batch? && k in e.items then Some(e.items[k]) else LastRead(evs, k)
  {
    assert (evs + [e])[..|evs|] == evs;
  }

  /** The sync has not begun, or its record is right so far. */
  ghost predicate Recorded(s: Importer, id: nat, evs: seq<Event>, k: Key) {
    if evs == [] then id !in s.staging else RecordOf(s, id, evs, k)
  }

  lemma NotBegun(k: Key)
    ensures LastDelta([], k).None? && LastRead([], k).None?
  {
  }

  lemma BatchRecorded(s: Importer, id: nat, evs: seq<Event>, items: map<Key, Param>, up: bool, k: Key)
    requires Recorded(s, id, evs, k)
    ensures RecordOf(Full(s, id, items, false, up), id, evs + [Batch(items, up)], k)
  {
    hide LastDelta, LastRead;
    MergedThen(evs, Batch(items, up), k);
    NotBegun(k);
    FullHandles(s, id, items, false, up, k);
    var s', st := Full(s, id, items, false, up), StagingOf(s, id);
    assert s'.staging[id] == Staging(st.keys + NotOvertaken(s, id, items).Keys, st.overtaken);
    hide Full;
    assert k in NotOvertaken(s, id, items) <==> k in items && k !in st.overtaken;
    assert k in NotOvertaken(s, id, items) ==> NotOvertaken(s, id, items)[k] == items[k];
    hide NotOvertaken;
  }

  lemma DeltaRecorded(s: Importer, id: nat, evs: seq<Event>, ch: map<Key, Change>, up: bool, k: Key)
    requires RecordOf(s, id, evs, k)
    ensures RecordOf(Delta(s, ch, up), id, evs + [Deltas(ch, up)], k)
  {
    hide LastDelta, LastRead, Delta;
    MergedThen(evs, Deltas(ch, up), k);
    DeltaLeaves(s, ch, up, k);
    DeltaTouches(s, id, ch, up, k);
  }

  lemma DeltaLeaves(s: Importer, ch: map<Key, Change>, up: bool, k: Key)
    ensures
      var s' := Delta(s, ch, up);
      if k in ch then
        if ch[k].removed then k !in s'.managed && k in s'.pending
        else k in s'.managed && k in s'.snapshot && s'.snapshot[k] == ch[k].param
      else (k in s'.managed <==> k in s.managed) && (k in s'.snapshot <==> k in s.snapshot) && (k in s.snapshot ==> s'.snapshot[k] == s.snapshot[k])
  {
    hide Delta;
    DeltaHandles(s, ch, up, k);
  }

  lemma DeltaTouches(s: Importer, id: nat, ch: map<Key, Change>, up: bool, k: Key)
    requires id in s.staging
    ensures id in Delta(s, ch, up).staging
    ensures
      var st, st' := s.staging[id], Delta(s, ch, up).staging[id];
      && (k in st'.overtaken <==> k in st.overtaken || k in ch)
      && (k in st'.keys <==> if k in ch then !ch[k].removed else k in st.keys)
  {
    assert Delta(s, ch, up).staging[id] == Touch(s.staging[id], ch);
  }

  lemma {:induction false} SyncRecorded(s0: Importer, id: nat, evs: seq<Event>, s: Importer, k: Key)
    requires id !in s0.staging && evs != [] && evs[0].Batch? && Syncing(s0, id, evs, s)
    ensures RecordOf(s, id, evs, k)
    decreases |evs|
  {
    hide RecordOf, Full, Delta;
    var n := |evs| - 1;
    var m :| Syncing(s0, id, evs[..n], m) && s == After(m, id, evs[n], false) && (evs[n].Quiet? ==> IsQuiet(m, s, id));
    assert evs == evs[..n] + [evs[n]];
    if n == 0 {
      BatchRecorded(s0, id, evs[..0], evs[0].items, evs[0].up, k);
    } else {
      SyncRecorded(s0, id, evs[..n], m, k);
      match evs[n]
      case Batch(items, up) => BatchRecorded(m, id, evs[..n], items, up, k);
      case Deltas(ch, up) => DeltaRecorded(m, id, evs[..n], ch, up, k);
      case Quiet(after) => QuietRecorded(m, s, id, evs[..n], k);
    }
  }

  lemma QuietRecorded(s: Importer, s': Importer, id: nat, evs: seq<Event>, k: Key)
    requires RecordOf(s, id, evs, k) && IsQuiet(s, s', id)
    ensures RecordOf(s', id, evs + [Quiet(s')], k)
  {
    var all := evs + [Quiet(s')];
    assert all[..|all| - 1] == evs;
  }

  lemma LastBatchMerges(s: Importer, id: nat, evs: seq<Event>, items: map<Key, Param>, up: bool, k: Key)
    requires Recorded(s, id, evs, k)
    ensures
      var s', merged := Full(s, id, items, true, up), Merged(evs + [Batch(items, up)], k);
      && (k in s'.managed <==> merged.Some?)
      && (merged.Some? ==> k in s'.snapshot && s'.snapshot[k] == merged.value)
      && (merged.None? && k in s.managed ==> k in s'.pending)
      && id !in s'.staging
  {
    hide LastDelta, LastRead;
    MergedThen(evs, Batch(items, up), k);
    NotBegun(k);
    hide Full, LeftOut, NotOvertaken;
    FullHandles(s, id, items, true, up, k);
    LastBatchAt(s, id, items, up, k);
  }

  lemma LastBatchAt(s: Importer, id: nat, items: map<Key, Param>, up: bool, k: Key)
    ensures
      var st, sets := StagingOf(s, id), NotOvertaken(s, id, items);
      && id !in Full(s, id, items, true, up).staging
      && (k in LeftOut(s, id, items) <==> (k in s.managed || k in sets) && k !in st.keys && k !in sets)
      && (k in sets <==> k in items && k !in st.overtaken) && (k in sets ==> sets[k] == items[k])
  {
    assert Full(s, id, items, true, up).staging == s.staging - {id};
  }

  /** However deltas and batches interleave, the last batch leaves exactly the merged cookies managed, at their merged
      values, and a pending deletion for every other cookie that was managed until then. */
  lemma FullSyncMerges(s0: Importer, id: nat, evs: seq<Event>, s: Importer, items: map<Key, Param>, up: bool, k: Key)
    requires id !in s0.staging && (evs != [] ==> evs[0].Batch?) && Syncing(s0, id, evs, s)
    ensures
      var s', merged := Full(s, id, items, true, up), Merged(evs + [Batch(items, up)], k);
      && (k in s'.managed <==> merged.Some?)
      && (merged.Some? ==> k in s'.snapshot && s'.snapshot[k] == merged.value)
      && (merged.None? && k in s.managed ==> k in s'.pending)
      && id !in s'.staging
  {
    hide RecordOf, Merged, Full;
    if evs != [] { SyncRecorded(s0, id, evs, s, k); }
    LastBatchMerges(s, id, evs, items, up, k);
  }
}
