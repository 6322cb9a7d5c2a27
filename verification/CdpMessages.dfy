// What travels through the CDP proxy, and the guard that looks inside wrapped
// messages (src/broker/cdp-proxy.js).
module CdpMessages {
  import opened Cookies

  type Sid = string

  /** A string the proxy parses: text that is no JSON, JSON that is no command, or a command. */
  datatype Json = NotJson | NotCommand | Command(cmd: Cmd)

  datatype Cmd = Cmd(name: string, params: Params)

  /** Envelope: what Target.sendMessageToTarget carries; each part may be missing. */
  datatype Params = Plain(content: string) | Envelope(hasTarget: bool, session: Option<Sid>, message: Option<Json>)

  const SEND_TO_TARGET := "Target.sendMessageToTarget"
  const ATTACH_TO_TARGET := "Target.attachToTarget"
  const ATTACH_TO_BROWSER := "Target.attachToBrowserTarget"
  const ATTACHED := "Target.attachedToTarget"
  const DETACHED := "Target.detachedFromTarget"
  const MAX_WRAPPED_DEPTH := 8

  predicate Blocked(name: string) {
    name in {"Browser.close", "Browser.crash", "Browser.crashGpuProcess"}
  }

  datatype Refusal = BlockedMethod(name: string) | TooDeep | BadEnvelope | BadInner

  /** Why a client's command must not reach Brave, or None. */
  function BlockedInside(cmd: Cmd, depth: nat): Option<Refusal>
    decreases cmd
  {
    if Blocked(cmd.name) then Some(BlockedMethod(cmd.name))
    else if cmd.name != SEND_TO_TARGET then None
    else if depth >= MAX_WRAPPED_DEPTH then Some(TooDeep)
    else if cmd.params.Plain? || cmd.params.hasTarget || cmd.params.session.None? ||
        cmd.params.message.None? then Some(BadEnvelope)
    else
      match cmd.params.message.value
      case Command(inner) => BlockedInside(inner, depth + 1)
      case _ => Some(BadInner)
  }

  // ── what Brave would run ──

  /** The command a command wraps, whatever else its envelope says. */
  function Wrapped(cmd: Cmd): Option<Cmd> {
    if cmd.name == SEND_TO_TARGET && cmd.params.Envelope? && cmd.params.message.Some? && cmd.params.message.value.Command?
    then Some(cmd.params.message.value.cmd) else None
  }

  /** Every method Brave runs for it, unwrapping as deep as it goes. */
  function Runs(cmd: Cmd): seq<string>
    decreases cmd
  {
    [cmd.name] + if Wrapped(cmd).Some? then Runs(Wrapped(cmd).value) else []
  }

  /** Every wrapper names a session and no target, and holds a command. */
  predicate ProperlyWrapped(cmd: Cmd)
    decreases cmd
  {
    cmd.name == SEND_TO_TARGET ==>
      cmd.params.Envelope? && !cmd.params.hasTarget && cmd.params.session.Some? && Wrapped(cmd).Some? &&
          ProperlyWrapped(Wrapped(cmd).value)
  }

  function Layers(cmd: Cmd): nat
    decreases cmd
  {
    if cmd.name != SEND_TO_TARGET then 0
    else 1 + if Wrapped(cmd).Some? then Layers(Wrapped(cmd).value) else 0
  }

  /** The guard lets a command through exactly when nothing it makes Brave run is blocked,
      every wrapper is proper, and it is at most eight wrappers deep. */
  lemma {:induction false} GuardIsExact(cmd: Cmd, depth: nat)
    requires depth <= MAX_WRAPPED_DEPTH
    ensures BlockedInside(cmd, depth).None? <==>
            (forall m :: m in Runs(cmd) ==> !Blocked(m)) && ProperlyWrapped(cmd) && depth + Layers(cmd) <= MAX_WRAPPED_DEPTH
    decreases cmd
  {
    assert cmd.name in Runs(cmd);
    if cmd.name == SEND_TO_TARGET && Wrapped(cmd).Some? {
      var inner := Wrapped(cmd).value;
      assert forall m :: m in Runs(cmd) <==> m == cmd.name || m in Runs(inner);
      if depth < MAX_WRAPPED_DEPTH { GuardIsExact(inner, depth + 1); }
    }
  }

  // ── messages ──

  /** What a client sends; a request's session, when it names one. */
  datatype Msg = Msg(id: int, cmd: Cmd, session: Option<Sid>)

  datatype ClientData = BadJson | BadMessage | Request(msg: Msg)

  datatype Outcome = Refused(why: Refusal) | NoSession | Failed(error: string) | Result(content: string, attached: Option<Sid>)

  datatype ToClient = Answer(id: int, outcome: Outcome, session: Option<Sid>) | Event(name: string, sub: Option<Sid>,
      content: string, session: Option<Sid>)

  /** What Brave sends: a reply (`attached`: the sessionId in its result) or a notice (`sub`: the one in its params). */
  datatype BrowserMsg =
    | Reply(id: nat, error: Option<string>, content: string, attached: Option<Sid>)
    | Notice(session: Option<Sid>, name: string, sub: Option<Sid>, content: string)
}
