// Asking for a Brave leads somewhere: a launch, a close and a reap under way can always go
// on (src/broker/brave-supervisor.js ensure, _launch, _close).
module SupervisorProgress {
  import opened SupervisorSteps
  import opened SupervisorRuns

  /** A launch that waits for the Brave before it waits for a reap that is under way or over. */
  predicate Reaping(s: Supervisor) {
    s.launch == AwaitReap ==> Has(s) && Last(s).reap != NoReap
  }

  lemma ReapingKept(s: Supervisor, a: Step)
    requires Inv(s) && Enabled(s, a) && Reaping(s)
    ensures Reaping(Next(s, a))
  {
    hide Told, ProcOk, LaunchOk;
  }

  lemma {:induction false} ReapingOverRun(s0: Supervisor, steps: seq<Step>, s: Supervisor)
    requires Inv(s0) && Reaping(s0) && Reaches(s0, steps, s)
    ensures Inv(s) && Reaping(s)
    decreases |steps|
  {
    if steps != [] {
      hide Inv, Reaping, Next, Enabled;
      InvKept(s0, steps[0]);
      ReapingKept(s0, steps[0]);
      ReapingOverRun(Next(s0, steps[0]), steps[1..], s);
    }
  }

  /** ensure() gives the running Brave or has a launch under way; it starts one exactly when there is neither. */
  lemma EnsureLaunches(steps: seq<Step>, s: Supervisor)
    requires Reaches(FIRST, steps, s) && Enabled(s, EnsureCalled)
    ensures var t := Next(s, EnsureCalled);
      && (s.launch == NoLaunch && IsUp(s) ==> t == s)
      && (s.launch != NoLaunch ==> t == s)
      && (s.launch == NoLaunch && !IsUp(s) ==> t.launch == if Has(s) && !Last(s).exited then AwaitReap else Preparing)
      && (t.launch == NoLaunch ==> IsUp(t))
  {
  }

  /** The steps that move a launch on. */
  predicate MovesLaunch(s: Supervisor, a: Step) {
    || a == LaunchReaped || a == Spawned || a == UpFailed || a == LaunchKilled || a == CertsSet
    || (s.launch == AwaitReap && s.procs != [] && (a == ReapWaited(|s.procs| - 1) || a == ReapKilled(|s.procs| - 1)))
  }

  /** A launch under way is never stuck, and one whose Brave is up ends with it up unless it went down meanwhile. */
  lemma LaunchGoesOn(steps: seq<Step>, s: Supervisor)
    requires Reaches(FIRST, steps, s) && s.launch != NoLaunch
    ensures exists a :: Enabled(s, a) && MovesLaunch(s, a)
    ensures s.launch == AwaitCerts && Last(s).up && Last(s).alive ==> IsUp(Next(s, CertsSet)) && Next(s, CertsSet).launch == NoLaunch
  {
    FirstReaping();
    ReapingOverRun(FIRST, steps, s);
    var a := match s.launch
      case AwaitReap =>
        if Last(s).reap == ReapWait then ReapWaited(|s.procs| - 1)
        else if Last(s).reap == KillWait then ReapKilled(|s.procs| - 1)
        else LaunchReaped
      case Preparing => Spawned
      case AwaitUp => UpFailed
      case AwaitKill => LaunchKilled
      case _ => CertsSet;
    assert Enabled(s, a) && MovesLaunch(s, a);
  }

  lemma FirstReaping()
    ensures Inv(FIRST) && Reaping(FIRST)
  {
  }

  /** A close under way is never stuck either: it waits for the launch, for the exit, or for its kill. */
  lemma CloseGoesOn(steps: seq<Step>, s: Supervisor)
    requires Reaches(FIRST, steps, s) && s.close != NoClose
    ensures (s.close == AwaitLaunch && s.launch != NoLaunch) || Enabled(s, LaunchSettled) || Enabled(s, ExitWaited) || Enabled(s, CloseKilled)
  {
    FirstReaping();
    ReapingOverRun(FIRST, steps, s);
  }
}
