// When a Brave is killed: only when it outlived its waits, and after a close only once it
// had the time it was promised (src/broker/brave-supervisor.js _close, _reap, _launch).
module SupervisorKills {
  import opened SupervisorSteps
  import opened SupervisorRuns

  /** How many waits for the exit of the Brave being closed are over. */
  function Waits(s: Supervisor, a: Step, waits: nat): nat
    requires Enabled(s, a)
  {
    match a
    case ExitWaited => waits + 1
    case CloseCalled => if s.close == NoClose then 0 else waits
    case LaunchSettled => 0
    case _ => waits
  }

  /** The run of steps from s0 ends in s, and `waits` counts the waits of the close under way there. */
  ghost predicate Follows(s0: Supervisor, waits0: nat, steps: seq<Step>, s: Supervisor, waits: nat)
    decreases |steps|
  {
    if steps == [] then s == s0 && waits == waits0
    else Enabled(s0, steps[0]) && Follows(Next(s0, steps[0]), Waits(s0, steps[0], waits0), steps[1..], s, waits)
  }

  predicate Counted(s: Supervisor, waits: nat) {
    s.close.ExitWait? ==> waits == if s.close.grace then 1 else 0
  }

  lemma CountedKept(s: Supervisor, a: Step, waits: nat)
    requires Enabled(s, a) && Counted(s, waits)
    ensures Counted(Next(s, a), Waits(s, a, waits))
  {
  }

  lemma {:induction false} CountedOverRun(s0: Supervisor, waits0: nat, steps: seq<Step>, s: Supervisor, waits: nat)
    requires Inv(s0) && Counted(s0, waits0) && Follows(s0, waits0, steps, s, waits)
    ensures Inv(s) && Counted(s, waits)
    decreases |steps|
  {
    if steps != [] {
      InvKept(s0, steps[0]);
      CountedKept(s0, steps[0], waits0);
      hide Inv, Counted, Next, Enabled, Waits;
      CountedOverRun(Next(s0, steps[0]), Waits(s0, steps[0], waits0), steps[1..], s, waits);
    }
  }

  /** A wait of a close is over. The close ends if Brave exited. A Brave that went down, so that its pipe is closed, accepted the close: after
      the first wait it gets a second, untouched. Any other is killed: one that ignored the close after the first wait, one
      that is still shutting down after the second. */
  lemma CloseKillsLast(steps: seq<Step>, s: Supervisor, waits: nat)
    requires Follows(FIRST, 0, steps, s, waits) && Enabled(s, ExitWaited)
    ensures var t := Next(s, ExitWaited);
      && (Last(s).exited ==> t.close == NoClose && Last(t).killed == Last(s).killed && Last(t).down)
      && (!Last(s).exited && Last(s).down && waits == 0 ==> t.close.ExitWait? && t.procs == s.procs)
      && (!Last(s).exited && !(Last(s).down && waits == 0) ==> t.close == CloseKill && Last(t).killed)
    ensures waits <= 1
  {
    CountedOverRun(FIRST, 0, steps, s, waits);
  }

  /** The close asks the current Brave to exit and waits; it touches no other. */
  lemma CloseBegins(steps: seq<Step>, s: Supervisor, waits: nat, a: Step)
    requires Follows(FIRST, 0, steps, s, waits) && Enabled(s, a)
    requires a == LaunchSettled || (a == CloseCalled && s.close == NoClose && s.launch == NoLaunch)
    ensures var t := Next(s, a);
      if Has(s) && !Last(s).exited then t.close.ExitWait? && Last(t).closing && Waits(s, a, waits) == 0 && Last(t).killed == Last(s).killed
      else t.close == NoClose && t.procs == s.procs
  {
  }

  /** Brave i did not come up, did not exit in time after it went down, ignored a close, or did not finish one in the second wait. */
  predicate Due(s: Supervisor, waits: nat, a: Step, i: nat)
    requires i < |s.procs|
  {
    && !s.procs[i].exited
    && (|| (a == UpFailed && i == |s.procs| - 1)
        || (a == ReapWaited(i) && s.procs[i].reap == ReapWait)
        || (a == ExitWaited && i == |s.procs| - 1 && !s.procs[i].down)
        || (a == ExitWaited && i == |s.procs| - 1 && waits == 1))
  }

  /** Step a kills i, which was not killed before, exactly if it is due. */
  predicate KillsDue(s: Supervisor, waits: nat, a: Step, i: nat)
    requires Enabled(s, a) && i < |s.procs|
  {
    i < |Next(s, a).procs| && (!s.procs[i].killed ==> (Next(s, a).procs[i].killed <==> Due(s, waits, a, i)))
  }

  lemma LaunchKills(s: Supervisor, waits: nat, a: Step, i: nat)
    requires Enabled(s, a) && i < |s.procs|
    requires a.EnsureCalled? || a.LaunchReaped? || a.PrepareFailed? || a.Spawned? || a.UpFailed? || a.UpDone? || a.LaunchKilled? || a.CertsSet?
    ensures KillsDue(s, waits, a, i)
  {
  }

  lemma CloseKills(s: Supervisor, waits: nat, a: Step, i: nat)
    requires Enabled(s, a) && i < |s.procs| && Counted(s, waits)
    requires a.CloseCalled? || a.LaunchSettled? || a.ExitWaited? || a.CloseKilled?
    ensures KillsDue(s, waits, a, i)
  {
  }

  lemma ElseKills(s: Supervisor, waits: nat, a: Step, i: nat)
    requires Enabled(s, a) && i < |s.procs|
    requires a.ReapWaited? || a.ReapKilled? || a.Dies? || a.ExitSeen? || a.PipeDropped? || a.AliveChecked?
    ensures KillsDue(s, waits, a, i)
  {
  }

  /** A Brave is killed only while it has not exited, in exactly four cases: it did not come up, it did not exit in time after it went down,
      it ignored a close, or it did not finish the close in the second wait. */
  lemma KilledOnlyWhenDue(steps: seq<Step>, s: Supervisor, waits: nat, a: Step, i: nat)
    requires Follows(FIRST, 0, steps, s, waits) && Enabled(s, a) && i < |s.procs| && !s.procs[i].killed
    ensures i < |Next(s, a).procs| && (Next(s, a).procs[i].killed <==> Due(s, waits, a, i))
  {
    CountedOverRun(FIRST, 0, steps, s, waits);
    hide Inv, Follows, Counted, Due, Next, Enabled;
    assert KillsDue(s, waits, a, i) by {
      if a.CloseCalled? || a.LaunchSettled? || a.ExitWaited? || a.CloseKilled? { CloseKills(s, waits, a, i); }
      else if a.ReapWaited? || a.ReapKilled? || a.Dies? || a.ExitSeen? || a.PipeDropped? || a.AliveChecked? { ElseKills(s, waits, a, i); }
      else { LaunchKills(s, waits, a, i); }
    }
  }

  /** What a Brave that came up and then went down is owed: it is reaped unless its close takes care of it. */
  lemma DownIsReaped(s: Supervisor, i: nat)
    requires i < |s.procs| && s.procs[i].up && !s.procs[i].down && !s.procs[i].exited && !s.procs[i].closing
    ensures Enabled(s, PipeDropped(i)) && var p := Next(s, PipeDropped(i)).procs[i]; p.down && p.killed == s.procs[i].killed && p.reap != NoReap
  {
  }
}
