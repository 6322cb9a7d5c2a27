// The registry's promises on every run.
module SessionTheorems {
  import opened Cookies
  import opened SessionSteps
  import opened SessionInvariant

  ghost predicate Init(s: Sys) {
    s == Sys(Registry(0, {}, {}, map[], map[], map[], UNLOCKED, None, []), map[], {})
  }

  ghost predicate Reaches(s0: Sys, steps: seq<Step>, s: Sys)
    decreases |steps|
  {
    if steps == [] then s == s0 else CanStep(s0, steps[0]) && Reaches(Step1(s0, steps[0]), steps[1..], s)
  }

  lemma {:induction false} RunHolds(s0: Sys, steps: seq<Step>, s: Sys)
    requires Inv(s0) && Reaches(s0, steps, s)
    ensures Inv(s)
    decreases |steps|
  {
    if steps != [] {
      InvKept(s0, steps[0]);
      RunHolds(Step1(s0, steps[0]), steps[1..], s);
    }
  }

  /** A context handed out was created by its tab's own creation in the current epoch, for a connection still open. */
  lemma NoStaleContext(s0: Sys, steps: seq<Step>, s: Sys, t: Tab)
    requires Init(s0) && Reaches(s0, steps, s) && t in OpenTabs(s.reg)
    ensures t.conn !in s.reg.closedConns && s.reg.entries[s.reg.tabs[t]].tab == t
    ensures var c := s.reg.entries[s.reg.tabs[t]].ctx.value; c in s.past && s.past[c] == Fate(s.reg.tabs[t], s.reg.epoch, 0, false)
  {
    RunHolds(s0, steps, s);
    var e := s.reg.tabs[t];
    assert TabOk(s.reg, t) && EntryOk(s.reg, s.past, e);
    var c := s.reg.entries[e].ctx.value;
    assert Accounted(s.reg, s.past, c) && Stored(s.reg, c, e);
  }

  predicate InFlight(s: Registry, e: nat) {
    e in s.entries && !s.entries[e].phase.Ready? && !s.entries[e].phase.Failed?
  }

  /** No context is leaked and none is closed twice: each is stored, in a creation's hands, closed once, or died with its browser. */
  lemma ContextsConserved(s0: Sys, steps: seq<Step>, s: Sys, c: nat)
    requires Init(s0) && Reaches(s0, steps, s) && c in s.past
    ensures s.past[c].closes <= 1 && !(s.past[c].closes == 1 && s.past[c].died)
    ensures Stored(s.reg, c, s.past[c].maker) ==> s.past[c].closes == 0 && !s.past[c].died
    ensures !InFlight(s.reg, s.past[c].maker) && !Stored(s.reg, c, s.past[c].maker) ==> s.past[c].closes == 1 || s.past[c].died
  {
    RunHolds(s0, steps, s);
    assert Accounted(s.reg, s.past, c);
  }

  /** The creation bodies exclude each other. */
  lemma OneBodyAtATime(s0: Sys, steps: seq<Step>, s: Sys, e: nat, x: nat)
    requires Init(s0) && Reaches(s0, steps, s) && e in s.reg.entries && x in s.reg.entries
    requires InBodyPhase(s.reg.entries[e].phase) && InBodyPhase(s.reg.entries[x].phase)
    ensures e == x
  {
    RunHolds(s0, steps, s);
    assert EntryOk(s.reg, s.past, e) && EntryOk(s.reg, s.past, x);
  }

  /** They run in the order the mutex was asked for: a body starts only when no other is under way, and no creation that still
      waits asked before it. */
  lemma BodiesInOrder(s0: Sys, steps: seq<Step>, s: Sys, e: nat, x: nat)
    requires Init(s0) && Reaches(s0, steps, s) && Enabled(s.reg, BodyStart(e)) && x in s.reg.entries
    ensures !InBodyPhase(s.reg.entries[x].phase)
    ensures s.reg.entries[x].phase.Waiting? && x != e ==> x in s.reg.lock.turns && s.reg.lock.turns[e] < s.reg.lock.turns[x]
  {
    RunHolds(s0, steps, s);
    assert EntryOk(s.reg, s.past, e) && EntryOk(s.reg, s.past, x);
    TurnIsFirst(s.reg, e);
  }

  /** A tab whose context died owes the agent a notice until it takes it or closes the tab. */
  lemma LostTabIsNoticed(s0: Sys, steps: seq<Step>, s: Sys, t: Tab)
    requires Init(s0) && Reaches(s0, steps, s) && t in s.lost
    ensures t in s.reg.notices
  {
    RunHolds(s0, steps, s);
  }

  // ── creations end ──

  /** An upper bound on the steps left. */
  function Rank(p: Phase): int {
    match p
    case Waiting(n) => 6 * (MAX_ATTEMPTS - n) + 5
    case Ensuring(n) => 6 * (MAX_ATTEMPTS - n) + 4
    case Creating(n, _) => 6 * (MAX_ATTEMPTS - n) + 3
    case Made(n, _, _) => 6 * (MAX_ATTEMPTS - n) + 2
    case BodyFailed(n, _) => 6 * (MAX_ATTEMPTS - n) + 2
    case Closing(n, _) => 6 * (MAX_ATTEMPTS - n) + 1
    case _ => 0
  }

  /** The creation a step moves on. */
  function Mover(s: Registry, a: Step): Option<nat> {
    match a
    case BodyStart(e) => Some(e)
    case EnsureFails(e) => Some(e)
    case EnsureDone(e) => Some(e)
    case CreateFails(e) => Some(e)
    case CreateDone(e, _) => Some(e)
    case Resumed(e) => Some(e)
    case CloseDone(e) => Some(e)
    case _ => None
  }

  lemma OthersRest(s: Registry, a: Step, e: nat)
    requires Enabled(s, a) && e in s.entries && Mover(s, a) != Some(e)
    ensures e in Next(s, a).entries && Next(s, a).entries[e] == s.entries[e]
  {
    hide OpenTabs, TabsOf, NoticesOf, Noticed;
  }

  lemma MoverGoesDown(s: Registry, a: Step, e: nat)
    requires Enabled(s, a) && e in s.entries && Mover(s, a) == Some(e) && Tried(s.entries[e].phase)
    ensures e in Next(s, a).entries && Rank(Next(s, a).entries[e].phase) < Rank(s.entries[e].phase)
  {
    hide Current;
  }

  lemma MovesDown(s: Registry, past: map<nat, Fate>, a: Step, e: nat)
    requires RegOk(s, past) && Enabled(s, a) && e in s.entries
    ensures e in Next(s, a).entries && Rank(Next(s, a).entries[e].phase) <= Rank(s.entries[e].phase) - One(Mover(s, a) == Some(e))
  {
    assert EntryOk(s, past, e);
    hide RegOk, Rank, Next, Enabled;
    if Mover(s, a) == Some(e) { MoverGoesDown(s, a, e); } else { OthersRest(s, a, e); }
  }

  ghost function Moves(s: Sys, steps: seq<Step>, e: nat): nat
    requires Runs(s, steps)
    decreases |steps|
  {
    if steps == [] then 0 else One(Mover(s.reg, steps[0]) == Some(e)) + Moves(Step1(s, steps[0]), steps[1..], e)
  }

  ghost predicate Runs(s: Sys, steps: seq<Step>)
    decreases |steps|
  {
    steps == [] || (CanStep(s, steps[0]) && Runs(Step1(s, steps[0]), steps[1..]))
  }

  /** A creation takes at most seventeen steps from its call, whatever happens around it. */
  lemma {:induction false} CreationEnds(s: Sys, steps: seq<Step>, e: nat)
    requires Inv(s) && Runs(s, steps)
    ensures Moves(s, steps, e) <= if e in s.reg.entries then Rank(s.reg.entries[e].phase) else 17
    ensures e in s.reg.entries ==> Rank(s.reg.entries[e].phase) <= 17
    decreases |steps|
  {
    if e in s.reg.entries { assert EntryOk(s.reg, s.past, e); RankBound(s.reg.entries[e].phase); }
    if steps != [] {
      var s1 := Step1(s, steps[0]);
      InvKept(s, steps[0]);
      CreationEnds(s1, steps[1..], e);
      if e in s.reg.entries {
        MovesDown(s.reg, s.past, steps[0], e);
      } else {
        NotYet(s, steps[0], e);
      }
      hide Inv, Step1, Rank, CanStep;
    }
  }

  lemma RankBound(p: Phase)
    requires Tried(p)
    ensures 0 <= Rank(p) <= 17
  {
  }

  lemma NotYet(s: Sys, a: Step, e: nat)
    requires Inv(s) && CanStep(s, a) && e !in s.reg.entries
    ensures Mover(s.reg, a) != Some(e)
  {
  }

  /** While a creation is in flight, one is always able to go on, once the promise of the body that ended last has settled. */
  lemma NeverStuck(s0: Sys, steps: seq<Step>, s: Sys, e: nat)
    requires Init(s0) && Reaches(s0, steps, s) && InFlight(s.reg, e)
    ensures (exists a :: Enabled(s.reg, a) && Mover(s.reg, a).Some?) ||
            (exists p, w :: Enabled(s.reg, Unlocked(p)) && Enabled(Next(s.reg, Unlocked(p)), BodyStart(w)))
  {
    RunHolds(s0, steps, s);
    assert EntryOk(s.reg, s.past, e);
    var p := s.reg.entries[e].phase;
    if s.reg.body.Some? {
      var b := s.reg.body.value;
      assert EntryOk(s.reg, s.past, b);
      var a := if s.reg.entries[b].phase.Ensuring? then EnsureDone(b) else CreateFails(b);
      assert Enabled(s.reg, a) && Mover(s.reg, a) == Some(b);
    } else if p.Waiting? {
      var w := s.reg.waiting[0];
      assert EntryOk(s.reg, s.past, w) && w in s.reg.waiting;
      if First(s.reg) in s.reg.lock.settled {
        assert Enabled(s.reg, BodyStart(w)) && Mover(s.reg, BodyStart(w)) == Some(w);
      } else {
        assert Enabled(Next(s.reg, Unlocked(First(s.reg))), BodyStart(w));
      }
    } else if p.Closing? {
      assert Enabled(s.reg, CloseDone(e)) && Mover(s.reg, CloseDone(e)) == Some(e);
    } else {
      assert Enabled(s.reg, Resumed(e)) && Mover(s.reg, Resumed(e)) == Some(e);
    }
  }
}
