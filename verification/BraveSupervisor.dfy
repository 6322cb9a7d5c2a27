// BraveSupervisor as the source runs it: its fields updated in place. Each method does
// what the step of the same kind in SupervisorSteps says.
module BraveSupervisorClass {
  import opened SupervisorSteps

  class BraveSupervisor {
    // every Brave spawned, the current one last
    var procs: seq<Proc>
    var launching: Launch
    var closing: Close

    ghost function State(): Supervisor
      reads this
    {
      Supervisor(procs, launching, closing)
    }

    constructor ()
      ensures State() == Supervisor([], NoLaunch, NoClose)
    {
      procs, launching, closing := [], NoLaunch, NoClose;
    }

    /** Whether a caller can use this Brave now: it came up, and its process lives. */
    method IsUpNow() returns (up: bool)
      ensures up == IsUp(State())
    {
      up := procs != [] && procs[|procs| - 1].up && procs[|procs| - 1].alive;
    }

    /** Down once per process; one that was up is reaped unless it is being closed, and 'down' is emitted. */
    method GoDown(i: nat)
      requires i < |procs|
      modifies `procs
      ensures State() == Put(old(State()), i, OnDown(old(procs)[i]))
    {
      var p := procs[i];
      if p.down { return; }
      var wasUp := p.up;
      p := p.(down := true, up := false);
      if wasUp {
        if !p.exited && !p.closing && p.reap == NoReap { p := p.(reap := ReapWait); }
        p := p.(heard := p.heard + [Down]);
      }
      procs := procs[i := p];
    }

    /** The part of ensure() that runs once no close is under way. `ready`: the caller gets the running Brave at once; else it joins
        the launch in flight, which this call begins if there is none. */
    method EnsureNow() returns (ready: bool)
      requires closing == NoClose
      modifies `procs, `launching
      ensures State() == Ensure(old(State()))
      ensures ready <==> old(launching) == NoLaunch && IsUp(old(State()))
    {
      var up := IsUpNow();
      ready := launching == NoLaunch && up;
      if ready || launching != NoLaunch { return; }
      if procs != [] && !procs[|procs| - 1].exited {
        var p := procs[|procs| - 1];
        if p.reap == NoReap { p := p.(reap := ReapWait); }
        procs := procs[|procs| - 1 := p];
        launching := AwaitReap;
      } else {
        launching := Preparing;
      }
    }

    /** The new Brave, of which nothing was emitted yet, is the current one; the launch waits for it to come up. */
    method SpawnBrave()
      requires launching == Preparing
      modifies `procs, `launching
      ensures State() == Spawn(old(State()))
    {
      procs := procs + [Proc(true, false, false, false, false, false, NoReap, false, [])];
      launching := AwaitUp;
    }

    /** CDP answered: callers may use this Brave once its certificate policy is set. Or the launch fails, and no process is left
        running unless its kill fails. */
    method UpOver(ok: bool)
      requires Enabled(State(), if ok then UpDone else UpFailed)
      modifies `procs, `launching
      ensures State() == Next(old(State()), if ok then UpDone else UpFailed)
    {
      var p := procs[|procs| - 1];
      if ok {
        procs := procs[|procs| - 1 := p.(up := true, cameUp := true)];
        launching := AwaitCerts;
      } else if p.exited {
        launching := NoLaunch;
      } else {
        procs := procs[|procs| - 1 := p.(killed := true)];
        launching := AwaitKill;
      }
    }

    /** The certificate policy is set: 'pipe' is emitted, also for a Brave that went down meanwhile, and the launch is over. */
    method Announce()
      requires Enabled(State(), CertsSet)
      modifies `procs, `launching
      ensures State() == CertsDone(old(State()))
    {
      var p := procs[|procs| - 1];
      procs := procs[|procs| - 1 := p.(heard := p.heard + [Pipe])];
      launching := NoLaunch;
    }

    /** A caller's close: joins the one under way, waits for a launch in flight, or begins. */
    method CloseGracefully()
      modifies `procs, `closing
      ensures State() == SupervisorSteps.CloseGracefully(old(State()))
    {
      if closing != NoClose { return; }
      if launching != NoLaunch { closing := AwaitLaunch; } else { BeginClose(); }
    }

    /** The close proper: over at once when no Brave runs, else the current one is asked to exit and waited for. */
    method BeginClose()
      modifies `procs, `closing
      ensures State() == StartClose(old(State()))
    {
      if procs == [] || procs[|procs| - 1].exited {
        closing := NoClose;
        return;
      }
      procs := procs[|procs| - 1 := procs[|procs| - 1].(closing := true)];
      closing := ExitWait(false);
    }

    /** The close's wait is over: it ends with Brave gone, grants more time to one that accepted it, or kills. */
    method ExitWaited()
      requires closing.ExitWait? && procs != []
      modifies `procs, `closing
      ensures State() == ExitWaitOver(old(State()))
    {
      var p := procs[|procs| - 1];
      if p.exited {
        EndClose();
      } else if p.down && !closing.grace {
        closing := ExitWait(true);
      } else {
        procs := procs[|procs| - 1 := p.(killed := true)];
        closing := CloseKill;
      }
    }

    /** The close is over and that Brave is down, announced if it was up and nobody had heard. */
    method EndClose()
      requires procs != []
      modifies `procs, `closing
      ensures State() == CloseEnds(old(State()))
    {
      GoDown(|procs| - 1);
      closing := NoClose;
    }

    /** A reap's wait is over: a launch waiting for it may go on, or the process is killed and given more time. */
    method ReapWaited(i: nat)
      requires i < |procs|
      modifies `procs
      ensures State() == ReapWaitOver(old(State()), i)
    {
      procs := procs[i := if procs[i].exited then procs[i].(reap := Reaped) else procs[i].(killed := true, reap := KillWait)];
    }

    /** The wait after its kill is over; a survivor is not reaped, and the launch that waited for it fails. */
    method ReapKilled(i: nat)
      requires i < |procs|
      modifies `procs, `launching
      ensures State() == ReapKillOver(old(State()), i)
    {
      if procs[i].exited {
        procs := procs[i := procs[i].(reap := Reaped)];
        return;
      }
      procs := procs[i := procs[i].(reap := NoReap)];
      if launching == AwaitReap && i == |procs| - 1 { launching := NoLaunch; }
    }

    /** The process exit arrived: from now on a new Brave may be spawned, and 'down' was emitted if this one was up. */
    method OnExit(i: nat)
      requires Enabled(State(), ExitSeen(i))
      modifies `procs
      ensures State() == Next(old(State()), ExitSeen(i))
    {
      procs := procs[i := procs[i].(exited := true)];
      GoDown(i);
    }

    /** A Brave whose process is gone goes down now, before its exit is processed. */
    method CheckAlive() returns (up: bool)
      requires procs != []
      modifies `procs
      ensures State() == Next(old(State()), AliveChecked) && up == IsUp(State())
    {
      if procs[|procs| - 1].up && !procs[|procs| - 1].alive { GoDown(|procs| - 1); }
      up := IsUpNow();
    }
  }
}
