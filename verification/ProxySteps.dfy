// The CDP proxy as a value and its atomic steps: one pipe to Brave, many clients
// (src/broker/cdp-proxy.js).
module ProxySteps {
  import opened Cookies
  import opened CdpMessages

  /** A client's websocket. `pipe` is the pipe it was accepted on. */
  datatype Client = Client(browserSession: Option<Sid>, queue: seq<ClientData>, sessions: set<Sid>, closed: bool, pipe: nat)

  /** A forwarded command awaiting its reply. `born` records the pipe it went to. */
  datatype Entry = Entry(client: nat, origId: int, name: string, routed: Option<Sid>, born: nat)

  datatype Owner = Owner(client: nat, born: nat)

  /** Pipes and clients are numbered; `nextId` is the current pipe's message counter. */
  datatype Proxy = Proxy(pipe: Option<nat>, open: bool, nextId: nat, pending: map<nat, Entry>, owner: map<Sid, Owner>,
      clients: map<nat, Client>)

  datatype Out =
    | Deliver(client: nat, msg: ToClient)
    | Forward(id: nat, sender: nat, session: Sid, request: Msg)
    | RootCall(id: nat, detach: Option<Sid>)
    | Shut(client: nat)
    // every websocket that was open, each once
    | ShutAll(gone: set<nat>)

  datatype Done = Done(proxy: Proxy, outs: seq<Out>)

  function OwnerOf(s: Proxy, sid: Sid): Option<nat> {
    if sid in s.owner then Some(s.owner[sid].client) else None
  }

  /** Someone owns the session. (Owners are always clients: see Inv.) */
  predicate Owned(s: Proxy, sid: Sid) {
    sid in s.owner && s.owner[sid].client in s.clients
  }

  predicate Open(s: Proxy, c: nat) {
    c in s.clients && !s.clients[c].closed
  }

  function ToClientOuts(s: Proxy, c: nat, msg: ToClient): seq<Out> {
    if Open(s, c) then [Deliver(c, msg)] else []
  }

  /** A call on the pipe's root session. */
  function Call(s: Proxy, detach: Option<Sid>): Done {
    Done(s.(nextId := s.nextId + 1), [RootCall(s.nextId, detach)])
  }

  function Own(s: Proxy, sid: Sid, c: nat): Proxy
    requires c in s.clients && s.pipe.Some?
  {
    s.(owner := s.owner[sid := Owner(c, s.pipe.value)], clients := s.clients[c := s.clients[c].(sessions := s.clients[c].sessions + {sid})])
  }

  function Disown(s: Proxy, sid: Sid): Proxy {
    var s1 := if sid in s.owner && s.owner[sid].client in s.clients then
                var c := s.owner[sid].client;
                s.(clients := s.clients[c := s.clients[c].(sessions := s.clients[c].sessions - {sid})])
              else s;
    s1.(owner := s1.owner - {sid})
  }

  ghost function IdsOf(s: Proxy, c: nat): set<nat> {
    set id | id in s.pending && s.pending[id].client == c
  }

  /** The proxy once client c is forgotten. */
  ghost function Without(s: Proxy, c: nat): Proxy
    requires c in s.clients
  {
    s.(clients := s.clients[c := s.clients[c].(closed := true, sessions := {})],
       owner := s.owner - s.clients[c].sessions, pending := s.pending - IdsOf(s, c))
  }

  /** Forget a client; Brave detaches its child sessions with its browser session. */
  ghost function CloseClient(s: Proxy, c: nat, detached: bool): Done
    requires c in s.clients
  {
    var browser := s.clients[c].browserSession;
    if s.clients[c].closed then Done(s, [])
    else if browser.Some? && !detached && s.pipe.Some? && s.open then Call(Without(s, c), browser)
    else Done(Without(s, c), [])
  }

  ghost function DropClient(s: Proxy, c: nat, detached: bool): Done
    requires c in s.clients
  {
    var d := CloseClient(s, c, detached);
    Done(d.proxy, d.outs + [Shut(c)])
  }

  function Sent(s: Proxy, entry: Entry): Proxy {
    s.(nextId := s.nextId + 1, pending := s.pending[s.nextId := entry])
  }

  /** A request of a client that has its browser session. */
  function Route(s: Proxy, c: nat, msg: Msg): Done
    requires Open(s, c) && s.clients[c].browserSession.Some? && s.pipe.Some?
  {
    var why := BlockedInside(msg.cmd, 0);
    if why.Some? then Done(s, ToClientOuts(s, c, Answer(msg.id, Refused(why.value), msg.session)))
    else if msg.cmd.name == SEND_TO_TARGET && OwnerOf(s, msg.cmd.params.session.value) != Some(c) then
      Done(s, ToClientOuts(s, c, Answer(msg.id, NoSession, msg.session)))
    else if msg.session.Some? && OwnerOf(s, msg.session.value) != Some(c) then
      Done(s, ToClientOuts(s, c, Answer(msg.id, NoSession, msg.session)))
    else
      var target := if msg.session.Some? then msg.session.value else s.clients[c].browserSession.value;
      Done(Sent(s, Entry(c, msg.id, msg.cmd.name, msg.session, s.pipe.value)), [Forward(s.nextId, c, target, msg)])
  }

  ghost function FromClient(s: Proxy, c: nat, data: ClientData): Done
    requires c in s.clients && s.pipe.Some? && (Open(s, c) ==> s.clients[c].browserSession.Some?)
  {
    if !Open(s, c) then Done(s, [])
    else if data.Request? then Route(s, c, data.msg)
    else DropClient(s, c, false)
  }

  lemma FromClientKeeps(s: Proxy, c: nat, data: ClientData)
    requires c in s.clients && s.pipe.Some? && (Open(s, c) ==> s.clients[c].browserSession.Some?)
    ensures var s1 := FromClient(s, c, data).proxy;
            c in s1.clients && s1.pipe == s.pipe && (Open(s1, c) ==> s1.clients[c].browserSession.Some?)
  {
  }

  /** The messages that waited for the browser session, in their order. */
  ghost function Flush(s: Proxy, c: nat, queue: seq<ClientData>): Done
    requires c in s.clients && s.pipe.Some? && (Open(s, c) ==> s.clients[c].browserSession.Some?)
    decreases |queue|
  {
    if queue == [] then Done(s, [])
    else
      FromClientKeeps(s, c, queue[0]);
      var d := FromClient(s, c, queue[0]);
      var rest := Flush(d.proxy, c, queue[1..]);
      Done(rest.proxy, d.outs + rest.outs)
  }

  /** The client has its browser session; its queue is about to be sent. */
  function Seated(s: Proxy, c: nat, sid: Sid): Proxy
    requires c in s.clients && s.pipe.Some?
  {
    s.(owner := s.owner[sid := Owner(c, s.pipe.value)],
       clients := s.clients[c := s.clients[c].(browserSession := Some(sid), sessions := s.clients[c].sessions + {sid},
           queue := [])])
  }

  /** The client's attach call is over: `sid` is its browser session, None when it failed or timed out. */
  ghost function Attached(s: Proxy, c: nat, sid: Option<Sid>): Done
    requires c in s.clients && s.clients[c].browserSession.None? && s.pipe.Some?
  {
    if sid.None? then DropClient(s, c, false)
    else if !Open(s, c) || s.pipe != Some(s.clients[c].pipe) then
      var s1 := s.(clients := s.clients[c := s.clients[c].(browserSession := sid)]);
      if s.pipe == Some(s.clients[c].pipe) && s.open then Call(s1, sid) else Done(s1, [])
    else Flush(Seated(s, c, sid.value), c, s.clients[c].queue)
  }

  function Data(s: Proxy, c: nat, data: ClientData): Proxy
    requires Open(s, c)
  {
    s.(clients := s.clients[c := s.clients[c].(queue := s.clients[c].queue + [data])])
  }

  predicate Attaches(name: string) {
    name == ATTACH_TO_TARGET || name == ATTACH_TO_BROWSER
  }

  function OutcomeOf(msg: BrowserMsg): Outcome
    requires msg.Reply?
  {
    if msg.error.Some? then Failed(msg.error.value) else Result(msg.content, msg.attached)
  }

  function FromReply(s: Proxy, msg: BrowserMsg): Done
    requires msg.Reply? && s.pipe.Some?
  {
    if msg.id !in s.pending then Done(s, [])
    else
      var p := s.pending[msg.id];
      var s1 := s.(pending := s.pending - {msg.id});
      var s2 := if msg.attached.Some? && Open(s, p.client) && Attaches(p.name) then Own(s1, msg.attached.value, p.client) else s1;
      Done(s2, ToClientOuts(s2, p.client, Answer(p.origId, OutcomeOf(msg), p.routed)))
  }

  ghost function FromNotice(s: Proxy, msg: BrowserMsg): Done
    requires msg.Notice? && s.pipe.Some?
  {
    if msg.session.None? then
      // the root session's: only Brave detaching a client's browser session matters
      if msg.name == DETACHED && msg.sub.Some? && Owned(s, msg.sub.value) &&
          s.clients[s.owner[msg.sub.value].client].browserSession == msg.sub
      then DropClient(s, s.owner[msg.sub.value].client, true)
      else Done(s, [])
    else if !Owned(s, msg.session.value) then Done(s, [])
    else
      var c := s.owner[msg.session.value].client;
      var s1 := if msg.name == ATTACHED && msg.sub.Some? then Own(s, msg.sub.value, c) else s;
      var shown := if msg.session == s.clients[c].browserSession then None else msg.session;
      var outs := ToClientOuts(s1, c, Event(msg.name, msg.sub, msg.content, shown));
      Done(if msg.name == DETACHED && msg.sub.Some? then Disown(s1, msg.sub.value) else s1, outs)
  }

  ghost function OpenClients(clients: map<nat, Client>): set<nat> {
    set c | c in clients && !clients[c].closed
  }

  /** Every session died with this Brave: all clients are forgotten, and the websockets still open are closed. */
  ghost function PipeClosed(s: Proxy): Done {
    Done(s.(pending := map[], owner := map[],
            clients := MapOf(s.clients.Keys, c requires c in s.clients => s.clients[c].(closed := true))),
         ShutOuts(OpenClients(s.clients)))
  }

  ghost function ShutOuts(gone: set<nat>): seq<Out> {
    if gone == {} then [] else [ShutAll(gone)]
  }

  // ── events ──

  datatype Event =
    | Accept(client: nat)
    | ClientSent(client: nat, data: ClientData)
    | AttachOver(client: nat, sid: Option<Sid>)
    | ClientGone(client: nat)
    | FromBrave(pipe: nat, msg: BrowserMsg)
    | SetPipe(pipe: nat, dead: bool, nextId: nat)
    | PipeEnded(pipe: nat)
    | TakeId

  /** What the environment may do. Clients and pipes are new when they come; `TakeId` is a call of the broker's own.
      (An open client always has a pipe: see Inv.) */
  predicate Enabled(s: Proxy, e: Event) {
    match e
    case Accept(c) => c !in s.clients && s.pipe.Some? && s.open
    case ClientSent(c, _) => c in s.clients && (Open(s, c) ==> s.pipe.Some?)
    case AttachOver(c, _) => c in s.clients && s.clients[c].browserSession.None? && s.pipe.Some?
    case ClientGone(c) => c in s.clients
    case FromBrave(_, _) => true
    case SetPipe(p, _, _) => s.pipe != Some(p) && forall c :: c in s.clients ==> s.clients[c].pipe != p
    case PipeEnded(_) => true
    case TakeId => s.open
  }

  /** What always holds. */
  ghost predicate Inv(s: Proxy) {
    && (s.open ==> s.pipe.Some?)
    && (forall c :: c in s.clients && !s.clients[c].closed ==> s.open && s.pipe == Some(s.clients[c].pipe))
    && (forall id :: id in s.pending ==> id < s.nextId && Open(s, s.pending[id].client) && s.pipe == Some(s.pending[id].born))
    && (forall sid :: sid in s.owner ==> Open(s, s.owner[sid].client) && s.pipe == Some(s.owner[sid].born) && sid in s.clients[s.owner[sid].client].sessions)
  }

  ghost function Next(s: Proxy, e: Event): Done
    requires Enabled(s, e)
  {
    match e
    case Accept(c) => Call(s.(clients := s.clients[c := Client(None, [], {}, false, s.pipe.value)]), None)
    case ClientSent(c, data) =>
      if s.clients[c].closed then Done(s, [])
      else if s.clients[c].browserSession.None? then Done(Data(s, c, data), [])
      else FromClient(s, c, data)
    case AttachOver(c, sid) => Attached(s, c, sid)
    case ClientGone(c) => CloseClient(s, c, false)
    case FromBrave(p, msg) =>
      if s.pipe != Some(p) then Done(s, [])
      else if msg.Reply? then FromReply(s, msg)
      else FromNotice(s, msg)
    case SetPipe(p, dead, n) =>
      var d := if s.open then PipeClosed(s) else Done(s, []);
      var s1 := d.proxy.(pipe := Some(p), open := !dead, nextId := n);
      if dead then Done(PipeClosed(s1).proxy, d.outs + PipeClosed(s1).outs) else Done(s1, d.outs)
    case PipeEnded(p) =>
      if s.pipe == Some(p) then PipeClosed(s.(open := false)) else Done(s, [])
    case TakeId => Call(s, None)
  }
}
