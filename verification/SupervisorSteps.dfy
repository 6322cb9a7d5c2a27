// The one-browser supervisor as a value and its atomic steps: launching, closing and
// reaping Brave (src/broker/brave-supervisor.js). A step is what runs between two awaits.
module SupervisorSteps {

  /** Waiting for a downed Brave to exit; KillWait: after the kill. Reaped: it exited, and the promise stays resolved. */
  datatype Reap = NoReap | ReapWait | KillWait | Reaped

  /** What the supervisor emits about a Brave. */
  datatype News = Down | Pipe

  /** One spawned Brave. `alive` is the process itself; `exited` says its exit was processed. `cameUp` and `heard` are
      history: it came up, and what was emitted about it, the oldest first. */
  datatype Proc = Proc(alive: bool, up: bool, down: bool, closing: bool, killed: bool, exited: bool, reap: Reap,
      cameUp: bool, heard: seq<News>)

  datatype Launch = NoLaunch | AwaitReap | Preparing | AwaitUp | AwaitKill | AwaitCerts

  datatype Close = NoClose | AwaitLaunch | ExitWait(grace: bool) | CloseKill

  /** The last one of `procs` is the source's _proc. */
  datatype Supervisor = Supervisor(procs: seq<Proc>, launch: Launch, close: Close)

  predicate Has(s: Supervisor) {
    s.procs != []
  }

  function Last(s: Supervisor): Proc
    requires Has(s)
  {
    s.procs[|s.procs| - 1]
  }

  function Put(s: Supervisor, i: nat, p: Proc): Supervisor
    requires i < |s.procs|
  {
    s.(procs := s.procs[i := p])
  }

  function PutLast(s: Supervisor, p: Proc): Supervisor
    requires Has(s)
  {
    s.(procs := s.procs[|s.procs| - 1 := p])
  }

  /** Brave went down: once per process, and heard only of one that was up. */
  function OnDown(p: Proc): Proc {
    if p.down then p
    else if !p.up then p.(down := true)
    else p.(down := true, up := false, heard := p.heard + [Down], reap := if p.exited || p.closing ||
        p.reap != NoReap then p.reap else ReapWait)
  }

  predicate IsUp(s: Supervisor) {
    Has(s) && Last(s).up && Last(s).alive
  }

  function Kill(p: Proc): Proc {
    p.(killed := true)
  }

  function StartReap(p: Proc): Proc {
    if p.reap == NoReap then p.(reap := ReapWait) else p
  }

  /** ensure(), once no close is under way: return the running Brave, join the launch, or start one. */
  function Ensure(s: Supervisor): Supervisor {
    if s.launch != NoLaunch || IsUp(s) then s
    else if Has(s) && !Last(s).exited then PutLast(s, StartReap(Last(s))).(launch := AwaitReap)
    else s.(launch := Preparing)
  }

  function Fresh(): Proc {
    Proc(true, false, false, false, false, false, NoReap, false, [])
  }

  function Spawn(s: Supervisor): Supervisor {
    s.(procs := s.procs + [Fresh()], launch := AwaitUp)
  }

  /** Brave did not come up: kill it, then the launch fails. */
  function LaunchFails(s: Supervisor): Supervisor
    requires Has(s)
  {
    if Last(s).exited then s.(launch := NoLaunch) else PutLast(s, Kill(Last(s))).(launch := AwaitKill)
  }

  function CameUp(s: Supervisor): Supervisor
    requires Has(s)
  {
    PutLast(s, Last(s).(up := true, cameUp := true)).(launch := AwaitCerts)
  }

  function CertsDone(s: Supervisor): Supervisor
    requires Has(s)
  {
    PutLast(s, Last(s).(heard := Last(s).heard + [Pipe])).(launch := NoLaunch)
  }

  /** The close proper, once no launch is in flight. */
  function StartClose(s: Supervisor): Supervisor {
    if !Has(s) || Last(s).exited then s.(close := NoClose)
    else PutLast(s, Last(s).(closing := true)).(close := ExitWait(false))
  }

  function CloseGracefully(s: Supervisor): Supervisor {
    if s.close != NoClose then s
    else if s.launch != NoLaunch then s.(close := AwaitLaunch)
    else StartClose(s)
  }

  /** The close is over: whatever is left of that Brave is down. */
  function CloseEnds(s: Supervisor): Supervisor
    requires Has(s)
  {
    PutLast(s, OnDown(Last(s))).(close := NoClose)
  }

  /** Its wait for the exit ended: closed, given more time once it accepted the close, or killed. */
  function ExitWaitOver(s: Supervisor): Supervisor
    requires Has(s) && s.close.ExitWait?
  {
    if Last(s).exited then CloseEnds(s)
    else if Last(s).down && !s.close.grace then s.(close := ExitWait(true))
    else PutLast(s, Kill(Last(s))).(close := CloseKill)
  }

  /** A reap's wait ended: reaped, or killed. */
  function ReapWaitOver(s: Supervisor, i: nat): Supervisor
    requires i < |s.procs|
  {
    if s.procs[i].exited then Put(s, i, s.procs[i].(reap := Reaped)) else Put(s, i, Kill(s.procs[i]).(reap := KillWait))
  }

  /** The wait after its kill ended. One that survived is not reaped, and a launch waiting for it fails. */
  function ReapKillOver(s: Supervisor, i: nat): Supervisor
    requires i < |s.procs|
  {
    if s.procs[i].exited then Put(s, i, s.procs[i].(reap := Reaped))
    else Put(s, i, s.procs[i].(reap := NoReap)).(launch := if s.launch == AwaitReap &&
        i == |s.procs| - 1 then NoLaunch else s.launch)
  }

  // ── steps ──

  datatype Step =
    | EnsureCalled
    | LaunchReaped
    | PrepareFailed
    | Spawned
    | UpFailed
    | UpDone
    | LaunchKilled
    | CertsSet
    | CloseCalled
    | LaunchSettled
    | ExitWaited
    | CloseKilled
    | ReapWaited(i: nat)
    | ReapKilled(i: nat)
    | Dies(i: nat)
    | ExitSeen(i: nat)
    | PipeDropped(i: nat)
    | AliveChecked

  predicate Enabled(s: Supervisor, a: Step) {
    match a
    case EnsureCalled => s.close == NoClose
    case LaunchReaped => s.launch == AwaitReap && Has(s) && Last(s).reap == Reaped
    case PrepareFailed => s.launch == Preparing
    case Spawned => s.launch == Preparing
    case UpFailed => s.launch == AwaitUp && Has(s)
    case UpDone => s.launch == AwaitUp && Has(s) && !Last(s).down && !Last(s).exited
    case LaunchKilled => s.launch == AwaitKill
    case CertsSet => s.launch == AwaitCerts && Has(s)
    case CloseCalled => true
    case LaunchSettled => s.close == AwaitLaunch && s.launch == NoLaunch
    case ExitWaited => s.close.ExitWait? && Has(s)
    case CloseKilled => s.close == CloseKill && Has(s)
    case ReapWaited(i) => i < |s.procs| && s.procs[i].reap == ReapWait
    case ReapKilled(i) => i < |s.procs| && s.procs[i].reap == KillWait
    case Dies(i) => i < |s.procs| && s.procs[i].alive
    case ExitSeen(i) => i < |s.procs| && !s.procs[i].alive && !s.procs[i].exited
    case PipeDropped(i) => i < |s.procs|
    case AliveChecked => Has(s)
  }

  function Next(s: Supervisor, a: Step): Supervisor
    requires Enabled(s, a)
  {
    match a
    case EnsureCalled => Ensure(s)
    case LaunchReaped => s.(launch := Preparing)
    case PrepareFailed => s.(launch := NoLaunch)
    case Spawned => Spawn(s)
    case UpFailed => LaunchFails(s)
    case UpDone => CameUp(s)
    case LaunchKilled => s.(launch := NoLaunch)
    case CertsSet => CertsDone(s)
    case CloseCalled => CloseGracefully(s)
    case LaunchSettled => StartClose(s)
    case ExitWaited => ExitWaitOver(s)
    case CloseKilled => CloseEnds(s)
    case ReapWaited(i) => ReapWaitOver(s, i)
    case ReapKilled(i) => ReapKillOver(s, i)
    case Dies(i) => Put(s, i, s.procs[i].(alive := false))
    case ExitSeen(i) => Put(s, i, OnDown(s.procs[i].(exited := true)))
    case PipeDropped(i) => Put(s, i, OnDown(s.procs[i]))
    case AliveChecked => if Last(s).up && !Last(s).alive then PutLast(s, OnDown(Last(s))) else s
  }
}
