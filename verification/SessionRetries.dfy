// When a creation is tried again, told by what happened to it: how its last attempt went,
// and whether the browser was reset meanwhile (src/broker/sessions.js _create).
module SessionRetries {
  import opened Cookies
  import opened SessionSteps
  import opened SessionInvariant
  import opened SessionTheorems

  /** What happened to one creation: the attempts begun; of the last one, whether its ensure() was through, whether Brave was
      reset since, and whether it threw. */
  datatype Story = Story(attempts: nat, ensured: bool, reset: bool, threw: bool)

  const UNTOLD := Story(0, false, false, false)

  /** Brave is found down: every context is dropped. */
  ghost predicate Resets(s: Registry, a: Step) {
    match a
    case WentDown(_) => true
    case Called(t, down, _, _) => t.conn !in s.closedConns && t in OpenTabs(s) && down
    case _ => false
  }

  ghost function Goes(s: Registry, a: Step, e: nat, y: Story): Story {
    match a
    case BodyStart(x) => if x == e then Story(y.attempts + 1, false, false, false) else y
    case EnsureDone(x) => if x == e then y.(ensured := true, reset := false) else y
    case EnsureFails(x) => if x == e then y.(threw := true) else y
    case CreateFails(x) => if x == e then y.(threw := true) else y
    case _ => if Resets(s, a) && y.ensured then y.(reset := true) else y
  }

  /** The run of steps from s0 ends in s, and y is what happened to creation e. */
  ghost predicate Follows(s0: Sys, y0: Story, steps: seq<Step>, e: nat, s: Sys, y: Story)
    decreases |steps|
  {
    if steps == [] then s == s0 && y == y0
    else CanStep(s0, steps[0]) && Follows(Step1(s0, steps[0]), Goes(s0.reg, steps[0], e, y0), steps[1..], e, s, y)
  }

  /** The attempt's ensure() was through in this epoch, or Brave was reset since. */
  ghost predicate Began(s: Registry, epoch: nat, y: Story) {
    y.ensured && epoch <= s.epoch && (y.reset <==> epoch != s.epoch)
  }

  ghost predicate Agrees(s: Registry, e: nat, y: Story) {
    if e !in s.entries then y == UNTOLD
    else
      match s.entries[e].phase
      case Waiting(n) => y.attempts + 1 == n
      case Ensuring(n) => y.attempts == n && !y.ensured && !y.threw
      case Creating(n, epoch) => y.attempts == n && Began(s, epoch, y) && !y.threw
      case Made(n, epoch, _) => y.attempts == n && Began(s, epoch, y) && !y.threw
      case BodyFailed(n, cut) => y.attempts == n && y.threw && if cut.None? then !y.ensured else Began(s, cut.value, y)
      case Closing(n, gone) => y.attempts == n && (gone ==> !Current(s, e)) && (!gone ==> y.ensured && y.reset && !y.threw)
      case _ => true
  }

  lemma AgreesAtOwn(s: Registry, past: map<nat, Fate>, a: Step, e: nat, y: Story)
    requires RegOk(s, past) && Enabled(s, a) && e in s.entries && Mover(s, a) == Some(e) && Agrees(s, e, y)
    ensures Agrees(Next(s, a), e, Goes(s, a, e, y))
  {
    hide OpenTabs, RegOk;
  }

  /** Only a reset changes the epoch, and it is told. */
  lemma EpochMoves(s: Registry, a: Step)
    requires Enabled(s, a)
    ensures Next(s, a).epoch == if Resets(s, a) then s.epoch + 1 else s.epoch
  {
    if a.Called? { SameOpen(s, s.conns + {a.tab.conn}); }
    hide OpenTabs;
  }

  lemma SameOpen(s: Registry, conns: set<nat>)
    ensures OpenTabs(s.(conns := conns)) == OpenTabs(s)
  {
  }

  /** A tab is never given back to a creation that lost it. */
  lemma LostStaysLost(s: Registry, a: Step, e: nat)
    requires Enabled(s, a) && e in s.entries && !Current(s, e)
    ensures e in Next(s, a).entries && Next(s, a).entries[e].tab == s.entries[e].tab && !Current(Next(s, a), e)
  {
    if a.Called? {
      CallTabs(s, a.tab, a.down, a.alive, a.entry, e);
      hide Call;
    } else {
      hide TabsOf, NoticesOf, OpenTabs;
    }
  }

  lemma CallTabs(s: Registry, t: Tab, down: bool, alive: bool, x: nat, e: nat)
    requires x !in s.entries && e in s.entries && !Current(s, e)
    ensures var s' := Call(s, t, down, alive, x); e in s'.entries && s'.entries[e].tab == s.entries[e].tab && !Current(s', e)
  {
    hide OpenTabs;
  }

  lemma AgreesElsewhere(s: Registry, past: map<nat, Fate>, a: Step, e: nat, y: Story)
    requires RegOk(s, past) && Enabled(s, a) && e in s.entries && Mover(s, a) != Some(e) && Agrees(s, e, y)
    ensures Agrees(Next(s, a), e, Goes(s, a, e, y))
  {
    OthersRest(s, a, e);
    EpochMoves(s, a);
    if !Current(s, e) { LostStaysLost(s, a, e); }
    hide Next, RegOk, OpenTabs, Resets;
  }

  lemma AgreesAtFirst(s: Registry, past: map<nat, Fate>, a: Step, e: nat, y: Story)
    requires RegOk(s, past) && Enabled(s, a) && e !in s.entries && Agrees(s, e, y)
    ensures Agrees(Next(s, a), e, Goes(s, a, e, y))
  {
    hide OpenTabs, TabsOf, NoticesOf, Noticed;
  }

  lemma AgreesKept(s: Sys, a: Step, e: nat, y: Story)
    requires Inv(s) && CanStep(s, a) && Agrees(s.reg, e, y)
    ensures Agrees(Step1(s, a).reg, e, Goes(s.reg, a, e, y))
  {
    assert RegOk(s.reg, s.past) && Step1(s, a).reg == Next(s.reg, a);
    hide Inv, RegOk, Agrees, Goes, Next, Step1;
    if e !in s.reg.entries { AgreesAtFirst(s.reg, s.past, a, e, y); }
    else if Mover(s.reg, a) == Some(e) { AgreesAtOwn(s.reg, s.past, a, e, y); }
    else { AgreesElsewhere(s.reg, s.past, a, e, y); }
  }

  lemma {:induction false} AgreesOverRun(s0: Sys, y0: Story, steps: seq<Step>, e: nat, s: Sys, y: Story)
    requires Inv(s0) && Agrees(s0.reg, e, y0) && Follows(s0, y0, steps, e, s, y)
    ensures Inv(s) && Agrees(s.reg, e, y)
    decreases |steps|
  {
    if steps != [] {
      hide Inv, Agrees, Goes, Step1, CanStep;
      InvKept(s0, steps[0]);
      AgreesKept(s0, steps[0], e, y0);
      AgreesOverRun(Step1(s0, steps[0]), Goes(s0.reg, steps[0], e, y0), steps[1..], e, s, y);
    }
  }

  lemma RunTold(s0: Sys, steps: seq<Step>, e: nat, s: Sys, y: Story)
    requires Init(s0) && Follows(s0, UNTOLD, steps, e, s, y)
    ensures Inv(s) && Agrees(s.reg, e, y)
  {
    hide Agrees, Follows;
    assert Inv(s0) && Agrees(s0.reg, e, UNTOLD) by { StartAgrees(s0, e); }
    AgreesOverRun(s0, UNTOLD, steps, e, s, y);
  }

  lemma StartAgrees(s: Sys, e: nat)
    requires Init(s)
    ensures Inv(s) && Agrees(s.reg, e, UNTOLD)
  {
  }

  /** A reset cut the attempt short: its ensure() was through, and Brave was reset since. */
  predicate CutShort(y: Story) {
    y.ensured && y.reset
  }

  /** What becomes of a creation whose body is over, while its tab is its own. One whose attempt threw is tried again exactly when a
      reset cut it short and it was not the third; else it fails. One that made a context stores it exactly when there was
      no reset since; else it closes that context first. */
  lemma TriedAgainIffCutShort(s0: Sys, steps: seq<Step>, e: nat, s: Sys, y: Story)
    requires Init(s0) && Follows(s0, UNTOLD, steps, e, s, y)
    requires Enabled(s.reg, Resumed(e)) && Current(s.reg, e)
    ensures var p := Next(s.reg, Resumed(e)).entries[e].phase;
      && (y.threw && CutShort(y) && y.attempts < 3 ==> p == Waiting(y.attempts + 1) && Next(s.reg, Resumed(e)).waiting == s.reg.waiting + [e])
      && (y.threw && !(CutShort(y) && y.attempts < 3) ==> p == Failed)
      && (!y.threw && CutShort(y) ==> p == Closing(y.attempts, false))
      && (!y.threw && !CutShort(y) ==> p == Ready && Next(s.reg, Resumed(e)).entries[e].ctx == Some(s.reg.entries[e].phase.made))
  {
    RunTold(s0, steps, e, s, y);
    assert EntryOk(s.reg, s.past, e);
    hide Init, Follows, RegOk;
  }

  /** ... and when that context is closed, it is tried again unless it was the third attempt. */
  lemma TriedAgainAfterClose(s0: Sys, steps: seq<Step>, e: nat, s: Sys, y: Story)
    requires Init(s0) && Follows(s0, UNTOLD, steps, e, s, y)
    requires Enabled(s.reg, CloseDone(e)) && Current(s.reg, e)
    ensures CutShort(y)
    ensures Next(s.reg, CloseDone(e)).entries[e].phase == if y.attempts < 3 then Waiting(y.attempts + 1) else Failed
  {
    RunTold(s0, steps, e, s, y);
    assert EntryOk(s.reg, s.past, e);
    hide Init, Follows, RegOk;
  }

  /** So while its tab is its own, a creation fails only after its third attempt, or when its last attempt threw and no reset had cut
      it short; whatever step it fails in. */
  lemma FailsOnlyUncut(s0: Sys, steps: seq<Step>, e: nat, s: Sys, y: Story, a: Step)
    requires Init(s0) && Follows(s0, UNTOLD, steps, e, s, y)
    requires CanStep(s, a) && e in s.reg.entries && Current(s.reg, e) && !s.reg.entries[e].phase.Failed?
    requires Next(s.reg, a).entries[e].phase.Failed?
    ensures y.attempts == 3 || (y.threw && !CutShort(y))
  {
    RunTold(s0, steps, e, s, y);
    assert EntryOk(s.reg, s.past, e);
    hide RegOk, OpenTabs;
    if Mover(s.reg, a) != Some(e) {
      OthersRest(s.reg, a, e);
    } else if a.Resumed? {
      TriedAgainIffCutShort(s0, steps, e, s, y);
    } else if a.CloseDone? {
      TriedAgainAfterClose(s0, steps, e, s, y);
    }
    hide Init, Follows, Inv;
  }

  /** A creation that failed is not kept: once that is noticed, the next call for its tab on an open connection gets a new one. */
  lemma FailedIsReplaced(s0: Sys, steps: seq<Step>, e: nat, s: Sys, down: bool, alive: bool, e': nat)
    requires Init(s0) && Reaches(s0, steps, s) && Enabled(s.reg, Uncached(e)) && Current(s.reg, e)
    requires e' !in s.reg.entries
    ensures var t, s1 := s.reg.entries[e].tab, Next(s.reg, Uncached(e));
      && t !in s1.tabs && Enabled(s1, Called(t, down, alive, e'))
      && var s2 := Next(s1, Called(t, down, alive, e'));
      t in s2.tabs && s2.tabs[t] == e' && s2.entries[e'].phase == Waiting(1) && s2.waiting == s.reg.waiting + [e']
  {
    RunHolds(s0, steps, s);
    var t := s.reg.entries[e].tab;
    assert TabOk(s.reg, t);
    var s1 := Next(s.reg, Uncached(e));
    assert t !in s1.tabs && s1.closedConns == s.reg.closedConns && s1.entries == s.reg.entries && s1.waiting == s.reg.waiting;
    hide RegOk, Next, Init, Reaches, TabOk;
    FreshCall(s1, t, down, alive, e');
  }

  lemma FreshCall(s: Registry, t: Tab, down: bool, alive: bool, e: nat)
    requires t !in s.tabs && t.conn !in s.closedConns && e !in s.entries
    ensures var s1 := Next(s, Called(t, down, alive, e));
      t in s1.tabs && s1.tabs[t] == e && s1.entries[e].phase == Waiting(1) && s1.waiting == s.waiting + [e]
  {
  }

  // ── which creation a call gets ──

  /** A call on an open connection joins the creation its tab has, while that is in flight or its context lives; else it gets a new one. */
  lemma CallJoins(s0: Sys, steps: seq<Step>, s: Sys, t: Tab, down: bool, alive: bool, e: nat)
    requires Init(s0) && Reaches(s0, steps, s) && Enabled(s.reg, Called(t, down, alive, e)) && t.conn !in s.reg.closedConns
    ensures var s1 := Next(s.reg, Called(t, down, alive, e));
      && t in s1.tabs
      && (t in s.reg.tabs && t !in OpenTabs(s.reg) ==> s1.tabs[t] == s.reg.tabs[t] && s1.entries == s.reg.entries)
      && (t in OpenTabs(s.reg) && !down && alive ==> s1.tabs[t] == s.reg.tabs[t] && s1.entries == s.reg.entries)
      && (t !in s.reg.tabs || (t in OpenTabs(s.reg) && (down || !alive)) ==> s1.tabs[t] == e && s1.entries[e] == Entry(t, None, Waiting(1)))
  {
    SameOpen(s.reg, s.reg.conns + {t.conn});
    var s1 := s.reg.(conns := s.reg.conns + {t.conn});
    assert t in OpenTabs(s.reg) ==> t in s.reg.tabs;
    hide OpenTabs;
    if down && t in OpenTabs(s.reg) { DownCloses(s1, t); }
  }

  lemma DownCloses(s: Registry, t: Tab)
    requires t in OpenTabs(s)
    ensures t !in InvalidateAll(s, "the browser went down").tabs
  {
  }

  /** Nothing is opened for a connection that has left. */
  lemma ClosedGetsNothing(s: Registry, t: Tab, down: bool, alive: bool, e: nat)
    requires Enabled(s, Called(t, down, alive, e)) && t.conn in s.closedConns
    ensures Next(s, Called(t, down, alive, e)) == s
  {
  }

  /** When Brave goes down, every tab with an open context gets a notice that says why, unless it has an earlier one, and no other tab does. */
  lemma DownSaysWhy(s: Registry, reason: string, t: Tab)
    ensures var n := Next(s, WentDown(reason)).notices;
      && (t in n <==> t in s.notices || t in OpenTabs(s))
      && (t in s.notices ==> n[t] == s.notices[t])
      && (t !in s.notices && t in OpenTabs(s) ==> n[t] == reason)
  {
    hide OpenTabs;
  }

  /** A notice keeps its first reason until it is taken, or its tab or connection is closed. */
  lemma FirstReasonStays(s: Registry, a: Step, t: Tab)
    requires Enabled(s, a) && t in s.notices && a != NoticeTaken(t) && a != TabClosed(t) && a != ConnClosed(t.conn)
    ensures t in Next(s, a).notices && Next(s, a).notices[t] == s.notices[t]
  {
    hide OpenTabs, TabsOf;
  }
}
