// The session registry as a value and its atomic steps: (connection, tab) to
// upstream context (src/broker/sessions.js). A step is what runs between two awaits.
module SessionSteps {
  import opened Cookies

  datatype Tab = Tab(conn: nat, key: string)

  const MAX_ATTEMPTS := 3

  /** Where a creation is; `n` is its attempt. Waiting: for the mutex. Ensuring, Creating: its body runs. Made, BodyFailed:
      its body ended. Closing: it closes a context nobody wants, and fails then if its tab was gone. */
  datatype Phase =
    | Waiting(n: nat)
    | Ensuring(n: nat)
    | Creating(n: nat, epoch: nat)
    | Made(n: nat, epoch: nat, made: nat)
    | BodyFailed(n: nat, cut: Option<nat>)
    | Closing(n: nat, gone: bool)
    | Ready
    | Failed

  datatype Entry = Entry(tab: Tab, ctx: Option<nat>, phase: Phase)

  /** The creation mutex is a chain of promises, numbered as they are made. `tail` is the field _lock. A body waits for the promise
      that was the tail when it was asked for, its `turn`, and makes the next one, which settles after the body is over
      (`ended` until then). */
  datatype Lock = Lock(tail: nat, turns: map<nat, nat>, ended: set<nat>, settled: set<nat>)

  const UNLOCKED := Lock(0, map[], {}, {0})

  /** Entries and contexts are numbered. `body` and `waiting` are history, no step asks for them: the creation whose body started
      last and is not over, and those that asked for the mutex and did not get it yet, the oldest first. */
  datatype Registry = Registry(
    epoch: nat, conns: set<nat>, closedConns: set<nat>, tabs: map<Tab, nat>, entries: map<nat, Entry>,
    notices: map<Tab, string>, lock: Lock, body: Option<nat>, waiting: seq<nat>)

  predicate Current(s: Registry, e: nat) {
    e in s.entries && s.entries[e].tab in s.tabs && s.tabs[s.entries[e].tab] == e
  }

  function With(s: Registry, e: nat, phase: Phase): Registry
    requires e in s.entries
  {
    s.(entries := s.entries[e := s.entries[e].(phase := phase)])
  }

  /** _serialized(): creation e waits for the tail of the chain, and its own promise is the tail now. */
  function Serialized(l: Lock, e: nat): Lock {
    l.(turns := l.turns[e := l.tail], tail := l.tail + 1)
  }

  function Without(q: seq<nat>, e: nat): seq<nat> {
    if q == [] then [] else if q[0] == e then q[1..] else [q[0]] + Without(q[1..], e)
  }

  /** The top of the creation loop: give up if the tab is gone, else wait for the mutex. */
  function Attempt(s: Registry, e: nat, n: nat): Registry
    requires e in s.entries
  {
    if !Current(s, e) then With(s, e, Failed) else With(s, e, Waiting(n)).(lock := Serialized(s.lock, e), waiting := s.waiting + [e])
  }

  function Noticed(notices: map<Tab, string>, t: Tab, reason: string): map<Tab, string> {
    if t in notices then notices else notices[t := reason]
  }

  /** The tabs whose context is open. */
  ghost function OpenTabs(s: Registry): set<Tab> {
    set t | t in s.tabs && s.tabs[t] in s.entries && s.entries[s.tabs[t]].ctx.Some?
  }

  /** Brave went down: every open tab is dropped, with a notice unless it has one. */
  ghost function InvalidateAll(s: Registry, reason: string): Registry {
    s.(epoch := s.epoch + 1, tabs := s.tabs - OpenTabs(s),
       notices := MapOf(s.notices.Keys + OpenTabs(s), t => if t in s.notices then s.notices[t] else reason))
  }

  const DISCONNECTED := "the browser disconnected"

  /** A creation begins: its first attempt waits for the mutex. */
  function Open(s: Registry, t: Tab, e: nat): Registry {
    s.(tabs := s.tabs[t := e], entries := s.entries[e := Entry(t, None, Waiting(1))],
       lock := Serialized(s.lock, e), waiting := s.waiting + [e])
  }

  /** A tool call asks for its tab's context. `down`: the liveness check found Brave dead; `alive`: the context's browser is connected. */
  ghost function Call(s: Registry, t: Tab, down: bool, alive: bool, e: nat): Registry {
    if t.conn in s.closedConns then s
    else
      var s0 := s.(conns := s.conns + {t.conn});
      var s1 := if t in OpenTabs(s0) && down then InvalidateAll(s0, "the browser went down") else s0;
      if t !in s1.tabs then Open(s1, t, e)
      else if t !in OpenTabs(s1) || alive then s1
      else Open(s1.(notices := Noticed(s1.notices, t, DISCONNECTED)), t, e)
  }

  function BodyStarts(s: Registry, e: nat): Registry
    requires e in s.entries && s.entries[e].phase.Waiting?
  {
    With(s, e, Ensuring(s.entries[e].phase.n)).(body := Some(e), waiting := Without(s.waiting, e))
  }

  /** The body is over; its promise will settle. */
  function BodyEnds(s: Registry, e: nat, phase: Phase): Registry
    requires e in s.entries && e in s.lock.turns
  {
    With(s, e, phase).(body := None, lock := s.lock.(ended := s.lock.ended + {s.lock.turns[e] + 1}))
  }

  /** The creation goes on after its body: the context is stored, closed or missing. */
  function Resume(s: Registry, e: nat): Registry
    requires e in s.entries && (s.entries[e].phase.Made? || s.entries[e].phase.BodyFailed?)
  {
    match s.entries[e].phase
    case BodyFailed(n, cut) =>
      // only a creation a reset cut short is tried again
      if !Current(s, e) || cut.None? || cut == Some(s.epoch) || n >= MAX_ATTEMPTS then With(s, e, Failed)
      else Attempt(s, e, n + 1)
    case Made(n, epoch, ctx) =>
      if !Current(s, e) then With(s, e, Closing(n, true))
      else if epoch == s.epoch then s.(entries := s.entries[e := s.entries[e].(ctx := Some(ctx), phase := Ready)])
      else With(s, e, Closing(n, false))
    case _ => s
  }

  function CloseOver(s: Registry, e: nat): Registry
    requires e in s.entries && s.entries[e].phase.Closing?
  {
    var n := s.entries[e].phase.n;
    if s.entries[e].phase.gone || n >= MAX_ATTEMPTS then With(s, e, Failed) else Attempt(s, e, n + 1)
  }

  /** A failed creation is not cached. */
  function Uncache(s: Registry, e: nat): Registry {
    if Current(s, e) then s.(tabs := s.tabs - {s.entries[e].tab}) else s
  }

  function CloseTab(s: Registry, t: Tab): Registry {
    s.(tabs := s.tabs - {t}, notices := s.notices - {t})
  }

  ghost function TabsOf(s: Registry, conn: nat): set<Tab> {
    set t | t in s.tabs && t.conn == conn
  }

  ghost function NoticesOf(s: Registry, conn: nat): set<Tab> {
    set t | t in s.notices && t.conn == conn
  }

  ghost function CloseConn(s: Registry, conn: nat): Registry {
    s.(closedConns := s.closedConns + {conn}, conns := s.conns - {conn}, tabs := s.tabs - TabsOf(s, conn),
        notices := s.notices - NoticesOf(s, conn))
  }

  // ── steps ──

  datatype Step =
    | Called(tab: Tab, down: bool, alive: bool, entry: nat)
    | BodyStart(entry: nat)
    | EnsureFails(entry: nat)
    | EnsureDone(entry: nat)
    | CreateFails(entry: nat)
    | CreateDone(entry: nat, ctx: nat)
    | Unlocked(promise: nat)
    | Resumed(entry: nat)
    | CloseDone(entry: nat)
    | Uncached(entry: nat)
    | TabClosed(tab: Tab)
    | ConnClosed(conn: nat)
    | WentDown(reason: string)
    | NotedReset(tab: Tab, reason: string)
    | NoticeTaken(tab: Tab)

  /** Creation e asked for the mutex. */
  predicate Turned(s: Registry, e: nat) {
    e in s.entries && e in s.lock.turns
  }

  predicate Enabled(s: Registry, a: Step) {
    match a
    case Called(_, _, _, e) => e !in s.entries
    case BodyStart(e) => Turned(s, e) && s.entries[e].phase.Waiting? && s.lock.turns[e] in s.lock.settled
    case EnsureFails(e) => Turned(s, e) && s.entries[e].phase.Ensuring?
    case EnsureDone(e) => Turned(s, e) && s.entries[e].phase.Ensuring?
    case CreateFails(e) => Turned(s, e) && s.entries[e].phase.Creating?
    case CreateDone(e, _) => Turned(s, e) && s.entries[e].phase.Creating?
    case Unlocked(p) => p in s.lock.ended
    case Resumed(e) => e in s.entries && (s.entries[e].phase.Made? || s.entries[e].phase.BodyFailed?)
    case CloseDone(e) => e in s.entries && s.entries[e].phase.Closing?
    case Uncached(e) => e in s.entries && s.entries[e].phase.Failed?
    case _ => true
  }

  ghost function Next(s: Registry, a: Step): Registry
    requires Enabled(s, a)
  {
    match a
    case Called(t, down, alive, e) => Call(s, t, down, alive, e)
    case BodyStart(e) => BodyStarts(s, e)
    case EnsureFails(e) => BodyEnds(s, e, BodyFailed(s.entries[e].phase.n, None))
    case EnsureDone(e) => With(s, e, Creating(s.entries[e].phase.n, s.epoch))
    case CreateFails(e) => BodyEnds(s, e, BodyFailed(s.entries[e].phase.n, Some(s.entries[e].phase.epoch)))
    case CreateDone(e, ctx) => BodyEnds(s, e, Made(s.entries[e].phase.n, s.entries[e].phase.epoch, ctx))
    case Unlocked(p) => s.(lock := s.lock.(ended := s.lock.ended - {p}, settled := s.lock.settled + {p}))
    case Resumed(e) => Resume(s, e)
    case CloseDone(e) => CloseOver(s, e)
    case Uncached(e) => Uncache(s, e)
    case TabClosed(t) => CloseTab(s, t)
    case ConnClosed(c) => CloseConn(s, c)
    case WentDown(reason) => InvalidateAll(s, reason)
    case NotedReset(t, reason) => s.(notices := Noticed(s.notices, t, reason))
    case NoticeTaken(t) => s.(notices := s.notices - {t})
  }
}
