// One live Brave, on every interleaving of ensure, close, crashes and failed kills.
module SupervisorRuns {
  import opened SupervisorSteps

  /** What was emitted about a Brave: 'down' once it came up and went down, 'pipe' once at most. */
  predicate Told(heard: seq<News>, cameUp: bool, down: bool) {
    && (Down in heard <==> cameUp && down)
    && (Pipe in heard ==> cameUp)
    && (heard == [] || heard == [Down] || heard == [Pipe] || heard == [Down, Pipe] || heard == [Pipe, Down])
  }

  predicate ProcOk(p: Proc) {
    && (p.exited ==> !p.alive)
    && (p.reap == Reaped ==> p.exited)
    && (p.cameUp ==> p.up == !p.down) && (p.up ==> p.cameUp)
    && Told(p.heard, p.cameUp, p.down)
  }

  /** What the launch in progress knows of the last Brave. */
  predicate LaunchOk(launch: Launch, p: Proc) {
    && (launch == AwaitUp ==> !p.cameUp)
    && (launch == AwaitCerts ==> p.cameUp && Pipe !in p.heard)
  }

  ghost predicate Inv(s: Supervisor) {
    && (forall i :: 0 <= i < |s.procs| ==> ProcOk(s.procs[i]))
    // all but the last have exited, and the last too once a launch prepares its own
    && (forall i :: 0 <= i < |s.procs| - 1 ==> s.procs[i].exited)
    && (s.launch == Preparing && Has(s) ==> Last(s).exited)
    && (s.launch != NoLaunch && s.launch != Preparing ==> Has(s))
    && (Has(s) ==> LaunchOk(s.launch, Last(s)))
    // a close that began works on its own: no launch beside it
    && (s.close.ExitWait? || s.close == CloseKill ==> s.launch == NoLaunch && Has(s))
  }

  // ── one process changes ──

  lemma PutKeeps(s: Supervisor, i: nat, p: Proc)
    requires Inv(s) && i < |s.procs| && ProcOk(p) && (s.procs[i].exited ==> p.exited)
    requires i == |s.procs| - 1 ==> LaunchOk(s.launch, p)
    ensures Inv(Put(s, i, p))
  {
    hide ProcOk, LaunchOk;
  }

  lemma PhaseKeeps(s: Supervisor, launch: Launch, close: Close)
    requires Inv(s)
    requires launch == Preparing && Has(s) ==> Last(s).exited
    requires launch != NoLaunch && launch != Preparing ==> Has(s)
    requires Has(s) ==> LaunchOk(launch, Last(s))
    requires close.ExitWait? || close == CloseKill ==> launch == NoLaunch && Has(s)
    ensures Inv(s.(launch := launch, close := close))
  {
    hide ProcOk, LaunchOk;
  }

  lemma Emitted(h: seq<News>)
    requires h == [] || h == [Down] || h == [Pipe]
    ensures h == [] ==> h + [Down] == [Down] && h + [Pipe] == [Pipe]
    ensures h == [Down] ==> h + [Pipe] == [Down, Pipe]
    ensures h == [Pipe] ==> h + [Down] == [Pipe, Down]
  {
  }

  lemma HeardIs(p: Proc)
    requires ProcOk(p)
    ensures p.heard == [] || p.heard == [Down] || p.heard == [Pipe] || p.heard == [Down, Pipe] || p.heard == [Pipe, Down]
    ensures Down !in p.heard ==> p.heard == [] || p.heard == [Pipe]
    ensures Pipe !in p.heard ==> p.heard == [] || p.heard == [Down]
    ensures p.up ==> Down !in p.heard
    ensures !p.cameUp ==> p.heard == []
  {
  }

  lemma DownOk(p: Proc, launch: Launch)
    requires ProcOk(p) && LaunchOk(launch, p)
    ensures ProcOk(OnDown(p)) && LaunchOk(launch, OnDown(p)) && OnDown(p).exited == p.exited && OnDown(p).down
  {
    HeardIs(p);
    if Down !in p.heard { Emitted(p.heard); }
  }

  lemma PipeOk(p: Proc)
    requires ProcOk(p) && p.cameUp && Pipe !in p.heard
    ensures ProcOk(p.(heard := p.heard + [Pipe]))
  {
    HeardIs(p);
    Emitted(p.heard);
  }

  lemma SpawnKeeps(s: Supervisor)
    requires Inv(s) && s.launch == Preparing
    ensures Inv(Spawn(s))
  {
    hide ProcOk, LaunchOk;
    assert ProcOk(Fresh()) && LaunchOk(AwaitUp, Fresh()) by { FreshOk(); }
  }

  lemma FreshOk()
    ensures ProcOk(Fresh()) && LaunchOk(AwaitUp, Fresh())
  {
  }

  lemma LaunchKept(s: Supervisor, a: Step)
    requires Inv(s) && Enabled(s, a)
    requires a.EnsureCalled? || a.LaunchReaped? || a.PrepareFailed? || a.Spawned? || a.UpFailed? || a.UpDone? ||
        a.LaunchKilled? || a.CertsSet?
    ensures Inv(Next(s, a))
  {
    var n := |s.procs| - 1;
    match a
    case EnsureCalled =>
      if s.launch == NoLaunch && !IsUp(s) {
        if Has(s) && !Last(s).exited {
          PutKeeps(s, n, StartReap(Last(s)));
          PhaseKeeps(Put(s, n, StartReap(Last(s))), AwaitReap, s.close);
        } else {
          PhaseKeeps(s, Preparing, s.close);
        }
      }
    case Spawned => SpawnKeeps(s);
    case UpFailed =>
      if Last(s).exited {
        PhaseKeeps(s, NoLaunch, s.close);
      } else {
        PutKeeps(s, n, Kill(Last(s)));
        PhaseKeeps(Put(s, n, Kill(Last(s))), AwaitKill, s.close);
      }
    case UpDone =>
      PhaseKeeps(s, NoLaunch, s.close);
      var p := Last(s).(up := true, cameUp := true);
      PutKeeps(s.(launch := NoLaunch), n, p);
      PhaseKeeps(Put(s.(launch := NoLaunch), n, p), AwaitCerts, s.close);
    case CertsSet =>
      PhaseKeeps(s, NoLaunch, s.close);
      PipeOk(Last(s));
      PutKeeps(s.(launch := NoLaunch), n, Last(s).(heard := Last(s).heard + [Pipe]));
    case LaunchReaped => PhaseKeeps(s, Preparing, s.close);
    case PrepareFailed => PhaseKeeps(s, NoLaunch, s.close);
    case LaunchKilled => PhaseKeeps(s, NoLaunch, s.close);
  }

  lemma StartCloseKeeps(s: Supervisor)
    requires Inv(s) && s.launch == NoLaunch && (s.close == NoClose || s.close == AwaitLaunch)
    ensures Inv(StartClose(s))
  {
    if !Has(s) || Last(s).exited {
      PhaseKeeps(s, s.launch, NoClose);
    } else {
      PutKeeps(s, |s.procs| - 1, Last(s).(closing := true));
      PhaseKeeps(Put(s, |s.procs| - 1, Last(s).(closing := true)), s.launch, ExitWait(false));
    }
  }

  lemma CloseEndsKeeps(s: Supervisor)
    requires Inv(s) && Has(s)
    ensures Inv(CloseEnds(s)) && Last(CloseEnds(s)).down
  {
    DownOk(Last(s), s.launch);
    PutKeeps(s, |s.procs| - 1, OnDown(Last(s)));
    PhaseKeeps(Put(s, |s.procs| - 1, OnDown(Last(s))), s.launch, NoClose);
  }

  lemma CloseKept(s: Supervisor, a: Step)
    requires Inv(s) && Enabled(s, a) && (a.CloseCalled? || a.LaunchSettled? || a.ExitWaited? || a.CloseKilled?)
    ensures Inv(Next(s, a))
  {
    match a
    case CloseCalled =>
      if s.close == NoClose {
        if s.launch != NoLaunch { PhaseKeeps(s, s.launch, AwaitLaunch); } else { StartCloseKeeps(s); }
      }
    case LaunchSettled => StartCloseKeeps(s);
    case ExitWaited =>
      if Last(s).exited {
        CloseEndsKeeps(s);
      } else if Last(s).down && !s.close.grace {
        PhaseKeeps(s, s.launch, ExitWait(true));
      } else {
        PutKeeps(s, |s.procs| - 1, Kill(Last(s)));
        PhaseKeeps(Put(s, |s.procs| - 1, Kill(Last(s))), s.launch, CloseKill);
      }
    case CloseKilled => CloseEndsKeeps(s);
  }

  lemma ProcessKept(s: Supervisor, a: Step)
    requires Inv(s) && Enabled(s, a)
    requires a.ReapWaited? || a.ReapKilled? || a.Dies? || a.ExitSeen? || a.PipeDropped? || a.AliveChecked?
    ensures Inv(Next(s, a))
  {
    hide Told;
    match a
    case ReapWaited(i) =>
      PutKeeps(s, i, if s.procs[i].exited then s.procs[i].(reap := Reaped) else Kill(s.procs[i]).(reap := KillWait));
    case ReapKilled(i) =>
      if s.procs[i].exited {
        PutKeeps(s, i, s.procs[i].(reap := Reaped));
      } else {
        var p := s.procs[i].(reap := NoReap);
        PutKeeps(s, i, p);
        if s.launch == AwaitReap && i == |s.procs| - 1 { PhaseKeeps(Put(s, i, p), NoLaunch, s.close); }
      }
    case Dies(i) => PutKeeps(s, i, s.procs[i].(alive := false));
    case ExitSeen(i) =>
      assert i == |s.procs| - 1;
      DownOk(s.procs[i].(exited := true), s.launch);
      PutKeeps(s, i, OnDown(s.procs[i].(exited := true)));
    case PipeDropped(i) =>
      if i == |s.procs| - 1 { DownOk(s.procs[i], s.launch); } else { DownOk(s.procs[i], NoLaunch); }
      PutKeeps(s, i, OnDown(s.procs[i]));
    case AliveChecked =>
      DownOk(Last(s), s.launch);
      PutKeeps(s, |s.procs| - 1, OnDown(Last(s)));
  }

  lemma InvKept(s: Supervisor, a: Step)
    requires Inv(s) && Enabled(s, a)
    ensures Inv(Next(s, a))
  {
    hide *;
    match a
    case CloseCalled => CloseKept(s, a);
    case LaunchSettled => CloseKept(s, a);
    case ExitWaited => CloseKept(s, a);
    case CloseKilled => CloseKept(s, a);
    case ReapWaited(_) => ProcessKept(s, a);
    case ReapKilled(_) => ProcessKept(s, a);
    case Dies(_) => ProcessKept(s, a);
    case ExitSeen(_) => ProcessKept(s, a);
    case PipeDropped(_) => ProcessKept(s, a);
    case AliveChecked => ProcessKept(s, a);
    case _ => LaunchKept(s, a);
  }

  // ── runs ──

  ghost predicate Reaches(s0: Supervisor, steps: seq<Step>, s: Supervisor)
    decreases |steps|
  {
    if steps == [] then s == s0 else Enabled(s0, steps[0]) && Reaches(Next(s0, steps[0]), steps[1..], s)
  }

  const FIRST := Supervisor([], NoLaunch, NoClose)

  lemma {:induction false} RunHolds(s0: Supervisor, steps: seq<Step>, s: Supervisor)
    requires Inv(s0) && Reaches(s0, steps, s)
    ensures Inv(s)
    decreases |steps|
  {
    if steps != [] {
      InvKept(s0, steps[0]);
      RunHolds(Next(s0, steps[0]), steps[1..], s);
    }
  }

  /** A Brave is spawned only when every earlier one has exited. */
  lemma SpawnsAlone(steps: seq<Step>, s: Supervisor, i: nat)
    requires Reaches(FIRST, steps, s) && Enabled(s, Spawned) && i < |s.procs|
    ensures s.procs[i].exited && !s.procs[i].alive
  {
    RunHolds(FIRST, steps, s);
    assert ProcOk(s.procs[i]);
  }

  /** Never two live Braves on the profile, even when a kill fails. */
  lemma OneLiveBrave(steps: seq<Step>, s: Supervisor, i: nat, j: nat)
    requires Reaches(FIRST, steps, s) && i < |s.procs| && j < |s.procs| && s.procs[i].alive && s.procs[j].alive
    ensures i == j == |s.procs| - 1
  {
    RunHolds(FIRST, steps, s);
    assert ProcOk(s.procs[i]) && ProcOk(s.procs[j]);
  }

  /** 'down' is emitted once for a launch that came up and went down, and never for another; 'pipe' at most once, for one that came up. */
  lemma DownOncePerLaunch(steps: seq<Step>, s: Supervisor, i: nat)
    requires Reaches(FIRST, steps, s) && i < |s.procs|
    ensures multiset(s.procs[i].heard)[Down] == if s.procs[i].cameUp && s.procs[i].down then 1 else 0
    ensures multiset(s.procs[i].heard)[Pipe] <= 1 && (Pipe in s.procs[i].heard ==> s.procs[i].cameUp)
    ensures s.procs[i].up ==> Down !in s.procs[i].heard
  {
    RunHolds(FIRST, steps, s);
    assert ProcOk(s.procs[i]);
  }

  /** Once a close has begun to take a Brave down, nothing is launched until it is over, and then that Brave is down. */
  lemma CloseExcludesLaunch(steps: seq<Step>, s: Supervisor, a: Step)
    requires Reaches(FIRST, steps, s) && Enabled(s, a) && (s.close.ExitWait? || s.close == CloseKill)
    ensures s.launch == NoLaunch && Next(s, a).launch == NoLaunch && |Next(s, a).procs| == |s.procs|
    ensures Next(s, a).close == NoClose ==> Last(Next(s, a)).down && Last(Next(s, a)).closing == Last(s).closing
  {
    RunHolds(FIRST, steps, s);
    if a.ExitWaited? || a.CloseKilled? { CloseEndsKeeps(s); }
  }

  // ── 'pipe' after 'down' ──

  /** Brave i goes down while its launch sets the certificate policy: its pipe closes, its exit arrives, or it is found dead. */
  predicate LostBeforePipe(s: Supervisor, a: Step, i: nat) {
    && s.launch == AwaitCerts && i == |s.procs| - 1 && s.procs[i].up
    && (a == PipeDropped(i) || a == ExitSeen(i) || (a == AliveChecked && !s.procs[i].alive))
  }

  ghost predicate LostInRun(s0: Supervisor, steps: seq<Step>, i: nat)
    decreases |steps|
  {
    steps != [] && Enabled(s0, steps[0]) && (LostBeforePipe(s0, steps[0], i) || LostInRun(Next(s0, steps[0]), steps[1..], i))
  }

  /** 'down' was emitted first, and 'pipe' after it or about to be. */
  predicate DownFirst(s: Supervisor, i: nat) {
    && i < |s.procs|
    && (s.procs[i].heard == [Down, Pipe] || (s.procs[i].heard == [Down] && s.launch == AwaitCerts && i == |s.procs| - 1))
  }

  /** What step a emits about Brave i. */
  predicate Emits(s: Supervisor, a: Step, i: nat, news: seq<News>)
    requires Enabled(s, a) && i < |s.procs|
  {
    var t := Next(s, a);
    && i < |t.procs| && t.procs[i].heard == s.procs[i].heard + news
    && ((t.launch == AwaitCerts && i == |t.procs| - 1) <==>
      (a != CertsSet && s.launch == AwaitCerts && i == |s.procs| - 1) || (a == UpDone && i == |s.procs| - 1))
  }

  lemma LaunchEmits(s: Supervisor, a: Step, i: nat)
    requires Inv(s) && Enabled(s, a) && i < |s.procs|
    requires a.EnsureCalled? || a.LaunchReaped? || a.PrepareFailed? || a.Spawned? || a.UpFailed? || a.UpDone? ||
        a.LaunchKilled? || a.CertsSet?
    ensures Emits(s, a, i, if a == CertsSet && i == |s.procs| - 1 then [Pipe] else [])
    ensures a == UpDone && i == |s.procs| - 1 ==> s.procs[i].heard == []
    ensures a == CertsSet ==> s.launch == AwaitCerts
  {
    hide Told;
    if i == |s.procs| - 1 { HeardIs(s.procs[i]); }
  }

  lemma CloseEmits(s: Supervisor, a: Step, i: nat)
    requires Inv(s) && Enabled(s, a) && (a.CloseCalled? || a.LaunchSettled? || a.ExitWaited? || a.CloseKilled?)
    requires i < |s.procs|
    ensures Emits(s, a, i, []) || (s.launch != AwaitCerts && s.procs[i].up && Emits(s, a, i, [Down]))
  {
  }

  lemma ReapEmits(s: Supervisor, a: Step, i: nat)
    requires Inv(s) && Enabled(s, a) && i < |s.procs| && (a.ReapWaited? || a.ReapKilled? || a.Dies?)
    ensures Emits(s, a, i, [])
  {
    hide ProcOk, LaunchOk;
  }

  lemma DownEmits(s: Supervisor, a: Step, i: nat)
    requires Inv(s) && Enabled(s, a) && i < |s.procs| && (a.ExitSeen? || a.PipeDropped? || a.AliveChecked?)
    ensures if s.procs[i].up && (a == PipeDropped(i) || a == ExitSeen(i) ||
        (a == AliveChecked && i == |s.procs| - 1 && !s.procs[i].alive)) then Emits(s, a, i, [Down]) else Emits(s, a, i, [])
  {
    hide LaunchOk, Told;
  }

  lemma QuietKeeps(s: Supervisor, a: Step, i: nat)
    requires Enabled(s, a) && i < |s.procs| && Emits(s, a, i, [])
    requires i == |s.procs| - 1 ==> a != CertsSet && (a == UpDone ==> s.procs[i].heard == [])
    ensures DownFirst(Next(s, a), i) <==> DownFirst(s, i)
  {
    hide Enabled, Next;
    assert s.procs[i].heard + [] == s.procs[i].heard;
  }

  lemma DownMoves(s: Supervisor, a: Step, i: nat)
    requires Enabled(s, a) && i < |s.procs| && Emits(s, a, i, [Down]) && a != CertsSet && a != UpDone
    requires s.procs[i].heard == [] || s.procs[i].heard == [Pipe]
    requires s.launch == AwaitCerts && i == |s.procs| - 1 ==> s.procs[i].heard == []
    ensures !DownFirst(s, i)
    ensures DownFirst(Next(s, a), i) <==> s.launch == AwaitCerts && i == |s.procs| - 1
  {
    hide Enabled, Next;
    Emitted(s.procs[i].heard);
  }

  lemma PipeMoves(s: Supervisor, i: nat)
    requires Enabled(s, CertsSet) && i == |s.procs| - 1 && Emits(s, CertsSet, i, [Pipe]) && s.launch == AwaitCerts
    requires s.procs[i].heard == [] || s.procs[i].heard == [Down]
    ensures DownFirst(Next(s, CertsSet), i) <==> DownFirst(s, i)
  {
    hide Enabled, Next;
    Emitted(s.procs[i].heard);
  }

  lemma LaunchOrder(s: Supervisor, a: Step, i: nat)
    requires Inv(s) && Enabled(s, a) && i < |s.procs|
    requires a.EnsureCalled? || a.LaunchReaped? || a.PrepareFailed? || a.Spawned? || a.UpFailed? || a.UpDone? ||
        a.LaunchKilled? || a.CertsSet?
    ensures DownFirst(Next(s, a), i) <==> DownFirst(s, i) || LostBeforePipe(s, a, i)
  {
    hide Enabled, Next, Emits, DownFirst;
    LaunchEmits(s, a, i);
    if a == CertsSet && i == |s.procs| - 1 {
      HeardIs(s.procs[i]);
      PipeMoves(s, i);
    } else {
      QuietKeeps(s, a, i);
    }
  }

  lemma DownOrder(s: Supervisor, a: Step, i: nat)
    requires Inv(s) && Enabled(s, a) && i < |s.procs|
    requires !(a.EnsureCalled? || a.LaunchReaped? || a.PrepareFailed? || a.Spawned? || a.UpFailed? || a.UpDone? ||
        a.LaunchKilled? || a.CertsSet?)
    requires (Emits(s, a, i, []) && !LostBeforePipe(s, a, i)) || (s.procs[i].up && Emits(s, a, i, [Down]) &&
        (LostBeforePipe(s, a, i) <==> s.launch == AwaitCerts && i == |s.procs| - 1))
    ensures DownFirst(Next(s, a), i) <==> DownFirst(s, i) || LostBeforePipe(s, a, i)
  {
    hide Enabled, Next, Emits, DownFirst, LostBeforePipe;
    if Emits(s, a, i, []) && !LostBeforePipe(s, a, i) {
      QuietKeeps(s, a, i);
    } else {
      HeardIs(s.procs[i]);
      DownMoves(s, a, i);
    }
  }

  lemma OrderKept(s: Supervisor, a: Step, i: nat)
    requires Inv(s) && Enabled(s, a) && i < |s.procs|
    ensures DownFirst(Next(s, a), i) <==> DownFirst(s, i) || LostBeforePipe(s, a, i)
  {
    hide Inv, Enabled, Next, Emits, DownFirst;
    match a
    case CloseCalled => CloseEmits(s, a, i); DownOrder(s, a, i);
    case LaunchSettled => CloseEmits(s, a, i); DownOrder(s, a, i);
    case ExitWaited => CloseEmits(s, a, i); DownOrder(s, a, i);
    case CloseKilled => CloseEmits(s, a, i); DownOrder(s, a, i);
    case ReapWaited(_) => ReapEmits(s, a, i); DownOrder(s, a, i);
    case ReapKilled(_) => ReapEmits(s, a, i); DownOrder(s, a, i);
    case Dies(_) => ReapEmits(s, a, i); DownOrder(s, a, i);
    case ExitSeen(_) => DownEmits(s, a, i); DownOrder(s, a, i);
    case PipeDropped(_) => DownEmits(s, a, i); DownOrder(s, a, i);
    case AliveChecked => DownEmits(s, a, i); DownOrder(s, a, i);
    case _ => LaunchOrder(s, a, i);
  }

  lemma {:induction false} OrderOf(s0: Supervisor, steps: seq<Step>, s: Supervisor, i: nat)
    requires Inv(s0) && Reaches(s0, steps, s)
    ensures DownFirst(s, i) <==> DownFirst(s0, i) || LostInRun(s0, steps, i)
    decreases |steps|
  {
    hide DownFirst, LostBeforePipe;
    if steps != [] {
      var a := steps[0];
      InvKept(s0, a);
      if i >= |s0.procs| {
        NewBrave(s0, a, i);
      } else {
        OrderKept(s0, a, i);
      }
      OrderOf(Next(s0, a), steps[1..], s, i);
    }
  }

  lemma NewBrave(s: Supervisor, a: Step, i: nat)
    requires Enabled(s, a) && i >= |s.procs|
    ensures !DownFirst(s, i) && !DownFirst(Next(s, a), i) && !LostBeforePipe(s, a, i)
  {
  }

  /** Everything emitted about a Brave, in order. 'pipe' follows 'down' exactly when that Brave went down while its launch set
      the certificate policy; any other announced Brave has its 'pipe' first. */
  lemma PipeAfterDown(steps: seq<Step>, s: Supervisor, i: nat)
    requires Reaches(FIRST, steps, s) && i < |s.procs|
    ensures var p := s.procs[i];
      p.heard == if Pipe !in p.heard then (if p.cameUp && p.down then [Down] else [])
        else if LostInRun(FIRST, steps, i) then [Down, Pipe]
        else if p.down then [Pipe, Down] else [Pipe]
  {
    RunHolds(FIRST, steps, s);
    OrderOf(FIRST, steps, s, i);
    assert ProcOk(s.procs[i]);
    if s.launch == AwaitCerts { assert LaunchOk(s.launch, Last(s)); }
  }

  lemma {:induction false} ReachesThen(s0: Supervisor, steps: seq<Step>, s: Supervisor, a: Step)
    requires Reaches(s0, steps, s) && Enabled(s, a)
    ensures Reaches(s0, steps + [a], Next(s, a))
    decreases |steps|
  {
    if steps == [] {
      assert Reaches(Next(s, a), (steps + [a])[1..], Next(s, a));
    } else {
      assert (steps + [a])[1..] == steps[1..] + [a];
      ReachesThen(Next(s0, steps[0]), steps[1..], s, a);
    }
  }

  /** Such a run: the Brave's pipe closes while the certificate policy is being set. */
  lemma LatePipeRun() returns (steps: seq<Step>, s: Supervisor, a: Step)
    ensures Reaches(FIRST, steps, s) && Enabled(s, a) && Has(s) && Has(Next(s, a))
    ensures Last(s).heard == [Down] && Last(Next(s, a)).heard == [Down, Pipe]
  {
    s := FIRST;
    steps := [];
    ReachesThen(FIRST, steps, s, EnsureCalled);
    steps, s := steps + [EnsureCalled], Next(s, EnsureCalled);
    ReachesThen(FIRST, steps, s, Spawned);
    steps, s := steps + [Spawned], Next(s, Spawned);
    ReachesThen(FIRST, steps, s, UpDone);
    steps, s := steps + [UpDone], Next(s, UpDone);
    ReachesThen(FIRST, steps, s, PipeDropped(0));
    steps, s := steps + [PipeDropped(0)], Next(s, PipeDropped(0));
    a := CertsSet;
  }
}
