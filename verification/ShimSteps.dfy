// The reconnecting JSON-RPC shim as a value and its atomic steps (src/shim.js).
module ShimSteps {
  import opened Cookies

  datatype Verb = Initialize(params: string) | Named(name: string)

  /** What a line from the client says. Other: a notification, a response or unreadable text. */
  datatype Line = Request(id: string, verb: Verb) | Cancel(id: string) | Initialized | Other(text: string)

  datatype Init = Init(id: string, params: string)

  /** A request id on a broker connection: the client's, or one the shim made for a replay. */
  datatype Id = Client(id: string) | Replay(n: nat)

  /** What the shim writes to the broker. */
  datatype Wire = Passed(line: Line) | InitReplay(n: nat, init: Init) | InitAgain(init: Init) | InitializedReplay

  /** `resendInit`: the client's initialize was in flight when a broker died. */
  datatype Shim = Shim(
    sock: bool, connecting: bool, queue: seq<Line>, inflight: map<string, Verb>, initMsg: Option<Init>, initialized: bool,
    resendInit: bool, replayId: Option<nat>, replays: nat, ending: bool, closed: bool, exited: bool)

  /** A step's outcome: `answers` are the ids of the responses written to the client, `wire` is what went to the broker. */
  datatype Done = Done(shim: Shim, answers: multiset<Id>, wire: seq<Wire>)

  function Connect(s: Shim): Shim {
    if s.connecting || s.sock || s.closed then s else s.(connecting := true)
  }

  /** Bookkeeping for a line that goes to the broker. */
  function ToBroker(s: Shim, line: Line): Shim {
    match line
    case Request(id, verb) =>
      s.(initMsg := if verb.Initialize? then Some(Init(id, verb.params)) else s.initMsg, inflight := s.inflight[id := verb])
    case Cancel(id) => s.(inflight := s.inflight - {id})
    case Initialized => s.(initialized := true)
    case Other(_) => s
  }

  /** ... and for lines that go one after the other. */
  function ToBrokerAll(s: Shim, lines: seq<Line>): Shim {
    if lines == [] then s else ToBroker(ToBrokerAll(s, lines[..|lines| - 1]), lines[|lines| - 1])
  }

  function PassAll(lines: seq<Line>): (w: seq<Wire>)
    ensures |w| == |lines| && forall i :: 0 <= i < |lines| ==> w[i] == Passed(lines[i])
  {
    if lines == [] then [] else PassAll(lines[..|lines| - 1]) + [Passed(lines[|lines| - 1])]
  }

  /** A line of the client; `big`: over the size limit. */
  function FromClient(s: Shim, line: Line, big: bool): Done {
    if s.ending then Done(s, multiset{}, [])
    else if big then Done(s, if line.Request? then multiset{Client(line.id)} else multiset{}, [])
    else if s.sock then Done(ToBroker(s, line), multiset{}, [Passed(line)])
    else Done(Connect(s.(queue := s.queue + [line])), multiset{}, [])
  }

  /** A reply of the broker to one of its connection's requests. */
  function FromBroker(s: Shim, id: Id): Done {
    match id
    case Replay(n) => if s.replayId == Some(n) then Done(s.(replayId := None), multiset{}, []) else Done(s, multiset{id}, [])
    case Client(i) => Done(s.(inflight := s.inflight - {i}), multiset{id}, [])
  }

  /** What a new connection opens with. */
  function Opening(s: Shim): seq<Wire> {
    if s.initMsg.None? then []
    else if s.resendInit then [InitAgain(s.initMsg.value)]
    else [InitReplay(s.replays + 1, s.initMsg.value)] + if s.initialized then [InitializedReplay] else []
  }

  /** The shim once it wrote the opening. */
  function Opened(s: Shim): Shim {
    var s1 := s.(connecting := false, sock := true);
    if s.initMsg.None? then s1
    else if s.resendInit then ToBroker(s1.(resendInit := false), Request(s.initMsg.value.id, Initialize(s.initMsg.value.params)))
    else s1.(replayId := Some(s.replays + 1), replays := s.replays + 1)
  }

  /** The broker accepted: replay the initialize, then everything that waited. */
  function Attach(s: Shim): Done {
    if s.closed then Done(s.(connecting := false), multiset{}, [])
    else Done(ToBrokerAll(Opened(s).(queue := []), s.queue), multiset{}, Opening(s) + PassAll(s.queue))
  }

  predicate IsInit(s: Shim, id: string) {
    id in s.inflight && s.inflight[id].Initialize?
  }

  ghost function LostCalls(s: Shim): set<Id> {
    set id | id in s.inflight && !s.inflight[id].Initialize? :: Client(id)
  }

  ghost predicate InitLost(s: Shim) {
    exists id :: IsInit(s, id)
  }

  /** The broker's connection closed: its requests are answered, but for an initialize, which the next broker gets again. */
  ghost function BrokerGone(s: Shim): Done {
    var s1 := s.(sock := false, replayId := None);
    if s.ending then Done(Exit(s1), multiset{}, [])
    else
      var s2 := s1.(inflight := map[], resendInit := s.resendInit || InitLost(s));
      Done(if s2.resendInit then Connect(s2) else s2, multiset(LostCalls(s)), [])
  }

  /** The ids of the requests among these lines. */
  function Requests(lines: seq<Line>): multiset<Id> {
    if lines == [] then multiset{}
    else Requests(lines[..|lines| - 1]) + if lines[|lines| - 1].Request? then multiset{Client(lines[|lines| - 1].id)} else multiset{}
  }

  /** No broker could be reached: everything that waited for one is answered. */
  function Unavailable(s: Shim): Done {
    if s.closed then Done(s.(connecting := false), multiset{}, [])
    else
      Done(s.(connecting := false, resendInit := false, queue := []),
           (if s.resendInit && s.initMsg.Some? then multiset{Client(s.initMsg.value.id)} else multiset{}) + Requests(s.queue), [])
  }

  function Exit(s: Shim): Shim {
    if s.exited then s else s.(exited := true, closed := true)
  }

  function ClientGone(s: Shim): Shim {
    if s.ending then s
    else
      var s1 := s.(ending := true, queue := []);
      if s.sock then s1 else Exit(s1.(closed := true))
  }

  // ── events ──

  datatype Event =
    | ClientLine(line: Line, big: bool)
    | Attached
    | NoBroker
    | BrokerReply(id: Id)
    | BrokerClosed
    | ClientEnded
    | GraceOver

  predicate Enabled(s: Shim, e: Event) {
    match e
    case Attached => s.connecting
    case NoBroker => s.connecting
    case BrokerReply(_) => s.sock
    case BrokerClosed => s.sock
    case GraceOver => s.ending
    case _ => true
  }

  ghost function Next(s: Shim, e: Event): Done
    requires Enabled(s, e)
  {
    match e
    case ClientLine(line, big) => FromClient(s, line, big)
    case Attached => Attach(s)
    case NoBroker => Unavailable(s)
    case BrokerReply(id) => FromBroker(s, id)
    case BrokerClosed => BrokerGone(s)
    case ClientEnded => Done(ClientGone(s), multiset{}, [])
    case GraceOver => Done(Exit(s), multiset{}, [])
  }

  /** A shim that just started: it connects eagerly. */
  function Started(): Shim {
    Shim(false, true, [], map[], None, false, false, None, 0, false, false, false)
  }
}
