// What a client receives from Brave, and what becomes of what it sends, told by what
// happened rather than by the proxy's tables (src/broker/cdp-proxy.js).
module ProxyEvents {
  import opened Cookies
  import opened CdpMessages
  import opened ProxySteps
  import opened ProxyInvariant
  import opened ProxyRouting
  import opened ProxyIsolation

  /** What Brave gave. held: on the current pipe, the client each session was announced to last, unless Brave detached it since;
      seats: the browser session of each client. */
  datatype History = History(held: map<Sid, nat>, seats: map<nat, Sid>)

  /** The session's client, if it is still there. */
  predicate Holds(s: Proxy, h: History, sid: Sid) {
    sid in h.held && Open(s, h.held[sid])
  }

  /** The id is a command's of client c that Brave did not answer yet. */
  predicate Asked(s: Sys, id: nat) {
    id in s.past.used && s.past.used[id].By? && id !in s.past.answered
  }

  /** The client's own browser session. */
  function Seat(h: History, c: nat): Option<Sid> {
    if c in h.seats then Some(h.seats[c]) else None
  }

  /** What an event announces: a session, and the client it is for. */
  function Given(s: Sys, h: History, e: Event): map<Sid, nat> {
    match e
    case AttachOver(c, Some(sid)) => if Open(s.proxy, c) then map[sid := c] else map[]
    case FromBrave(p, Reply(id, _, _, Some(sid))) =>
      if s.proxy.pipe == Some(p) && Asked(s, id) && Open(s.proxy, s.past.used[id].client) && Attaches(s.past.used[id].msg.cmd.name)
      then map[sid := s.past.used[id].client] else map[]
    case FromBrave(p, Notice(Some(on), name, Some(sid), _)) =>
      if s.proxy.pipe == Some(p) && name == ATTACHED && Holds(s.proxy, h, on) then map[sid := h.held[on]] else map[]
    case _ => map[]
  }

  /** The session Brave says is detached, on a session of a client that is there. */
  function Taken(s: Sys, h: History, e: Event): set<Sid> {
    match e
    case FromBrave(p, Notice(Some(on), name, Some(sid), _)) =>
      if s.proxy.pipe == Some(p) && name == DETACHED && Holds(s.proxy, h, on) then {sid} else {}
    case _ => {}
  }

  function After(s: Sys, h: History, e: Event): History {
    match e
    case SetPipe(_, _, _) => h.(held := map[])
    case AttachOver(c, Some(sid)) => History(h.held + Given(s, h, e), h.seats[c := sid])
    case _ => h.(held := (h.held + Given(s, h, e)) - Taken(s, h, e))
  }

  /** Brave gives one session to one client. */
  predicate Unshared(s: Sys, h: History, e: Event) {
    forall sid :: sid in Given(s, h, e) && Holds(s.proxy, h, sid) ==> h.held[sid] == Given(s, h, e)[sid]
  }

  /** The run of events from s0 ends in s, and h is what Brave gave on it. */
  ghost predicate Follows(s0: Sys, h0: History, events: seq<Event>, s: Sys, h: History)
    decreases |events|
  {
    if events == [] then s == s0 && h == h0
    else
      && Enabled(s0.proxy, events[0]) && Unshared(s0, h0, events[0])
      && Follows(Step(s0, events[0]), After(s0, h0, events[0]), events[1..], s, h)
  }

  // ── the tables say what happened ──

  ghost predicate OwnersTell(s: Proxy, h: History) {
    && (forall sid :: sid in s.owner <==> Holds(s, h, sid))
    && (forall sid :: sid in s.owner ==> s.owner[sid].client == h.held[sid])
  }

  ghost predicate SeatsTell(s: Proxy, h: History) {
    forall c :: c in s.clients ==> s.clients[c].browserSession == Seat(h, c)
  }

  ghost predicate Tells(s: Proxy, h: History) {
    Exact(s) && OwnersTell(s, h) && SeatsTell(s, h)
  }

  /** Every command of a client that is there, not answered yet, awaits its reply. */
  ghost predicate Awaited(s: Proxy, used: map<nat, Use>, answered: set<nat>) {
    forall id :: id in used && used[id].By? && id !in answered && Open(s, used[id].client) ==>
      id in s.pending && s.pending[id].name == used[id].msg.cmd.name
  }

  // ── closing ──

  lemma CloseTells(s: Proxy, c: nat, detached: bool, h: History)
    requires Inv(s) && Tells(s, h) && c in s.clients
    ensures Tells(CloseClient(s, c, detached).proxy, h)
  {
    CloseExact(s, c, detached);
  }

  lemma CloseAwaited(s: Proxy, c: nat, detached: bool, used: map<nat, Use>, answered: set<nat>)
    requires c in s.clients && Traced(s, used, answered) && Awaited(s, used, answered)
    ensures var d := CloseClient(s, c, detached); Awaited(d.proxy, Noted(used, d.outs), answered)
    ensures var d := DropClient(s, c, detached); Awaited(d.proxy, Noted(used, d.outs), answered)
  {
    var d := CloseClient(s, c, detached);
    NotedParts(used, d.outs, [Shut(c)]);
    NotedOne(Noted(used, d.outs), Shut(c));
    if d.outs != [] { NotedOne(used, d.outs[0]); }
  }

  // ── a client's requests ──

  lemma FromClientTells(s: Proxy, c: nat, data: ClientData, h: History)
    requires Inv(s) && Tells(s, h) && c in s.clients && s.pipe.Some? && (Open(s, c) ==> s.clients[c].browserSession.Some?)
    ensures Tells(FromClient(s, c, data).proxy, h)
  {
    FromClientExact(s, c, data);
    if Open(s, c) && !data.Request? { CloseTells(s, c, false, h); }
  }

  lemma FromClientAwaited(s: Proxy, c: nat, data: ClientData, used: map<nat, Use>, answered: set<nat>)
    requires c in s.clients && s.pipe.Some? && (Open(s, c) ==> s.clients[c].browserSession.Some?)
    requires Traced(s, used, answered) && Awaited(s, used, answered)
    ensures var d := FromClient(s, c, data); Awaited(d.proxy, Noted(used, d.outs), answered)
  {
    var d := FromClient(s, c, data);
    if Open(s, c) {
      if data.Request? {
        if d.outs != [] { NotedOne(used, d.outs[0]); }
        hide Noted;
      } else {
        CloseAwaited(s, c, false, used, answered);
      }
    }
  }

  lemma {:induction false} FlushTells(s: Proxy, c: nat, queue: seq<ClientData>, h: History)
    requires Inv(s) && Tells(s, h) && c in s.clients && s.pipe.Some? && (Open(s, c) ==> s.clients[c].browserSession.Some?)
    ensures Tells(Flush(s, c, queue).proxy, h)
    decreases |queue|
  {
    if queue != [] {
      FromClientTells(s, c, queue[0], h);
      FromClientInv(s, c, queue[0]);
      FromClientKeeps(s, c, queue[0]);
      FlushTells(FromClient(s, c, queue[0]).proxy, c, queue[1..], h);
      hide Inv, Tells, FromClient;
    }
  }

  lemma {:induction false} FlushAwaited(s: Proxy, c: nat, queue: seq<ClientData>, used: map<nat, Use>, answered: set<nat>)
    requires Inv(s) && c in s.clients && s.pipe.Some? && (Open(s, c) ==> s.clients[c].browserSession.Some?)
    requires Traced(s, used, answered) && Awaited(s, used, answered)
    ensures var d := Flush(s, c, queue); Awaited(d.proxy, Noted(used, d.outs), answered)
    decreases |queue|
  {
    if queue != [] {
      var d := FromClient(s, c, queue[0]);
      FromClientAwaited(s, c, queue[0], used, answered);
      FromClientTraced(s, c, queue[0], used, answered);
      FromClientInv(s, c, queue[0]);
      FromClientKeeps(s, c, queue[0]);
      FlushAwaited(d.proxy, c, queue[1..], Noted(used, d.outs), answered);
      NotedParts(used, d.outs, Flush(d.proxy, c, queue[1..]).outs);
      hide Inv, Traced, Awaited, FromClient, Noted;
    }
  }

  // ── the browser session ──

  lemma SeatedOwners(s: Proxy, c: nat, sid: Sid, h: History)
    requires OwnersTell(s, h) && Open(s, c) && s.pipe.Some?
    ensures OwnersTell(Seated(s, c, sid), History(h.held[sid := c], h.seats[c := sid]))
  {
  }

  lemma SeatedSeats(s: Proxy, c: nat, sid: Sid, h: History)
    requires SeatsTell(s, h) && Open(s, c) && s.pipe.Some?
    ensures SeatsTell(Seated(s, c, sid), History(h.held[sid := c], h.seats[c := sid]))
  {
  }

  lemma SeatedTells(s: Proxy, c: nat, sid: Sid, h: History)
    requires Tells(s, h) && Open(s, c) && s.pipe.Some?
    requires Holds(s, h, sid) ==> h.held[sid] == c
    ensures Tells(Seated(s, c, sid), History(h.held[sid := c], h.seats[c := sid]))
  {
    assert sid in s.owner ==> s.owner[sid].client == c;
    hide Exact, OwnersTell, SeatsTell, Seated;
    SeatedExact(s, c, sid);
    SeatedOwners(s, c, sid, h);
    SeatedSeats(s, c, sid, h);
  }

  lemma LateTells(s: Proxy, c: nat, sid: Sid, h: History)
    requires Tells(s, h) && c in s.clients && !Open(s, c)
    ensures Tells(s.(clients := s.clients[c := s.clients[c].(browserSession := Some(sid))]), h.(seats := h.seats[c := sid]))
  {
  }

  lemma CallTells(s: Proxy, detach: Option<Sid>, h: History)
    requires Tells(s, h)
    ensures Tells(Call(s, detach).proxy, h)
  {
  }

  /** The session goes to a client that waits for it: it has it, and sends what waited. */
  lemma SeatingTells(s: Proxy, c: nat, sid: Sid, h: History)
    requires Inv(s) && Tells(s, h) && Enabled(s, AttachOver(c, Some(sid))) && Open(s, c)
    requires Holds(s, h, sid) ==> h.held[sid] == c
    ensures Tells(Attached(s, c, Some(sid)).proxy, History(h.held[sid := c], h.seats[c := sid]))
  {
    SeatedTells(s, c, sid, h);
    SeatedInv(s, c, sid);
    SeatIs(s, c, sid);
    assert s.pipe == Some(s.clients[c].pipe);
    hide Tells, Inv, Seated, Flush;
    FlushTells(Seated(s, c, sid), c, s.clients[c].queue, History(h.held[sid := c], h.seats[c := sid]));
  }

  lemma LateSeatTells(s: Proxy, c: nat, sid: Sid, h: History)
    requires Tells(s, h) && Enabled(s, AttachOver(c, Some(sid))) && !Open(s, c)
    ensures Tells(Attached(s, c, Some(sid)).proxy, h.(seats := h.seats[c := sid]))
  {
    LateTells(s, c, sid, h);
    CallTells(s.(clients := s.clients[c := s.clients[c].(browserSession := Some(sid))]), Some(sid), h.(seats := h.seats[c := sid]));
    hide Tells;
  }

  lemma NoSeatTells(s: Proxy, c: nat, h: History)
    requires Inv(s) && Tells(s, h) && Enabled(s, AttachOver(c, None))
    ensures Tells(Attached(s, c, None).proxy, h)
  {
    CloseTells(s, c, false, h);
    hide Tells, CloseClient;
  }

  lemma AttachedTells(s: Sys, c: nat, sid: Option<Sid>, h: History)
    requires Inv(s.proxy) && Tells(s.proxy, h) && Enabled(s.proxy, AttachOver(c, sid)) && Unshared(s, h, AttachOver(c, sid))
    ensures Tells(Attached(s.proxy, c, sid).proxy, After(s, h, AttachOver(c, sid)))
  {
    hide Tells, Attached, Inv;
    if sid.None? {
      NoSeatTells(s.proxy, c, h);
      assert (h.held + map[]) - {} == h.held;
    } else if Open(s.proxy, c) {
      SeatingTells(s.proxy, c, sid.value, h);
      assert h.held + map[sid.value := c] == h.held[sid.value := c];
    } else {
      LateSeatTells(s.proxy, c, sid.value, h);
      assert h.held + map[] == h.held;
    }
  }

  lemma SeatIs(s: Proxy, c: nat, sid: Sid)
    requires c in s.clients && s.pipe.Some?
    ensures var s' := Seated(s, c, sid); c in s'.clients && s'.pipe == s.pipe && s'.clients[c].browserSession == Some(sid)
  {
  }

  lemma SeatedAwaited(s: Proxy, c: nat, sid: Sid, used: map<nat, Use>, answered: set<nat>)
    requires c in s.clients && s.pipe.Some? && Awaited(s, used, answered)
    ensures Awaited(Seated(s, c, sid), used, answered)
  {
  }

  lemma AttachedAwaited(s: Sys, c: nat, sid: Option<Sid>)
    requires SysInv(s) && Awaited(s.proxy, s.past.used, s.past.answered) && Enabled(s.proxy, AttachOver(c, sid))
    ensures var d := Attached(s.proxy, c, sid); Awaited(d.proxy, Noted(s.past.used, d.outs), s.past.answered)
  {
    var p, used, answered := s.proxy, s.past.used, s.past.answered;
    if sid.None? {
      CloseAwaited(p, c, false, used, answered);
    } else if Open(p, c) && p.pipe == Some(p.clients[c].pipe) {
      SeatedInv(p, c, sid.value);
      SeatedTraced(p, c, sid.value, s.past);
      SeatedAwaited(p, c, sid.value, used, answered);
      SeatIs(p, c, sid.value);
      hide SysInv, Inv, Traced, Granted, Awaited, Seated, Flush, Noted;
      FlushAwaited(Seated(p, c, sid.value), c, p.clients[c].queue, used, answered);
    } else {
      var d := Attached(p, c, sid);
      if d.outs != [] { NotedOne(used, d.outs[0]); }
      hide Flush, Seated, CloseClient;
    }
  }

  // ── what Brave sends ──

  lemma OwnOwners(s: Proxy, sid: Sid, c: nat, h: History)
    requires OwnersTell(s, h) && Open(s, c) && s.pipe.Some?
    ensures OwnersTell(Own(s, sid, c), h.(held := h.held[sid := c]))
  {
  }

  lemma OwnSeats(s: Proxy, sid: Sid, c: nat, h: History)
    requires SeatsTell(s, h) && Open(s, c) && s.pipe.Some?
    ensures SeatsTell(Own(s, sid, c), h.(held := h.held[sid := c]))
  {
  }

  lemma OwnTells(s: Proxy, sid: Sid, c: nat, h: History)
    requires Tells(s, h) && Open(s, c) && s.pipe.Some? && (Holds(s, h, sid) ==> h.held[sid] == c)
    ensures Tells(Own(s, sid, c), h.(held := h.held[sid := c]))
  {
    assert sid in s.owner ==> s.owner[sid].client == c;
    hide Exact, OwnersTell, SeatsTell, Own;
    OwnExact(s, sid, c);
    OwnOwners(s, sid, c, h);
    OwnSeats(s, sid, c, h);
  }

  lemma DisownExact(s: Proxy, sid: Sid)
    requires Exact(s)
    ensures Exact(Disown(s, sid))
  {
  }

  lemma DisownTells(s: Proxy, sid: Sid, h: History)
    requires Tells(s, h)
    ensures Tells(Disown(s, sid), h.(held := h.held - {sid}))
  {
    DisownExact(s, sid);
    hide Exact;
  }

  lemma PendingTells(s: Proxy, pending: map<nat, Entry>, h: History)
    requires Tells(s, h)
    ensures Tells(s.(pending := pending), h)
  {
  }

  lemma ReplyAwaited(s: Proxy, msg: BrowserMsg, used: map<nat, Use>, answered: set<nat>)
    requires msg.Reply? && s.pipe.Some? && Awaited(s, used, answered)
    ensures Awaited(FromReply(s, msg).proxy, used, answered + if msg.id in s.pending then {msg.id} else {})
  {
  }

  /** The reply awaited is its sender's, and it is still there. */
  lemma AwaitedIs(s: Sys, id: nat)
    requires SysInv(s) && Awaited(s.proxy, s.past.used, s.past.answered)
    ensures id in s.proxy.pending <==> Asked(s, id) && Open(s.proxy, s.past.used[id].client)
    ensures id in s.proxy.pending ==>
      var p, use := s.proxy.pending[id], s.past.used[id];
      p.client == use.client && p.origId == use.msg.id && p.routed == use.msg.session && p.name == use.msg.cmd.name && Open(s.proxy, p.client)
  {
  }

  lemma TakenReplyTells(s: Proxy, msg: BrowserMsg, h: History)
    requires msg.Reply? && s.pipe.Some? && Tells(s, h) && msg.id in s.pending && Open(s, s.pending[msg.id].client)
    requires var p := s.pending[msg.id];
      msg.attached.Some? && Attaches(p.name) && Holds(s, h, msg.attached.value) ==> h.held[msg.attached.value] == p.client
    ensures var p := s.pending[msg.id];
      Tells(FromReply(s, msg).proxy,
            if msg.attached.Some? && Attaches(p.name) then h.(held := h.held[msg.attached.value := p.client]) else h)
  {
    var s1 := s.(pending := s.pending - {msg.id});
    PendingTells(s, s.pending - {msg.id}, h);
    hide Tells, Own;
    if msg.attached.Some? && Attaches(s.pending[msg.id].name) {
      assert Holds(s1, h, msg.attached.value) == Holds(s, h, msg.attached.value);
      OwnTells(s1, msg.attached.value, s.pending[msg.id].client, h);
    }
  }

  lemma ReplyTells(s: Sys, e: Event, h: History)
    requires SysInv(s) && Tells(s.proxy, h) && Awaited(s.proxy, s.past.used, s.past.answered) && Unshared(s, h, e)
    requires e.FromBrave? && s.proxy.pipe == Some(e.pipe) && e.msg.Reply?
    ensures Tells(FromReply(s.proxy, e.msg).proxy, After(s, h, e))
  {
    var msg := e.msg;
    AwaitedIs(s, msg.id);
    assert h.held - {} == h.held && h.held + map[] == h.held;
    hide Tells, SysInv, Awaited;
    if msg.id in s.proxy.pending {
      var c := s.proxy.pending[msg.id].client;
      if msg.attached.Some? {
        assert h.held + map[msg.attached.value := c] == h.held[msg.attached.value := c];
        assert h.held[msg.attached.value := c] - {} == h.held[msg.attached.value := c];
      }
      assert msg.attached.Some? && Attaches(s.proxy.pending[msg.id].name) ==> Given(s, h, e) == map[msg.attached.value := c];
      TakenReplyTells(s.proxy, msg, h);
      hide FromReply;
    }
  }

  lemma SharedTells(s: Proxy, msg: BrowserMsg, h: History)
    requires msg.Notice? && s.pipe.Some? && Inv(s) && Tells(s, h) && msg.session.Some? && Holds(s, h, msg.session.value)
    requires var c := h.held[msg.session.value];
      msg.name == ATTACHED && msg.sub.Some? && Holds(s, h, msg.sub.value) ==> h.held[msg.sub.value] == c
    ensures var c := h.held[msg.session.value];
      Tells(FromNotice(s, msg).proxy,
            if msg.sub.None? then h
            else if msg.name == ATTACHED then h.(held := h.held[msg.sub.value := c])
            else if msg.name == DETACHED then h.(held := h.held - {msg.sub.value})
            else h)
  {
    assert s.owner[msg.session.value].client == h.held[msg.session.value] && Owned(s, msg.session.value);
    if msg.sub.Some? {
      if msg.name == ATTACHED { OwnTells(s, msg.sub.value, h.held[msg.session.value], h); }
      if msg.name == DETACHED { DisownTells(s, msg.sub.value, h); }
    }
    hide Tells, Inv, Own, Disown;
  }

  lemma NoticeTells(s: Sys, e: Event, h: History)
    requires SysInv(s) && Tells(s.proxy, h) && Unshared(s, h, e)
    requires e.FromBrave? && s.proxy.pipe == Some(e.pipe) && e.msg.Notice? && e.msg.session.Some?
    ensures Tells(FromNotice(s.proxy, e.msg).proxy, After(s, h, e))
  {
    var msg := e.msg;
    var on := msg.session.value;
    assert h.held - {} == h.held && h.held + map[] == h.held;
    assert Owned(s.proxy, on) ==> Holds(s.proxy, h, on);
    hide Tells, SysInv;
    if Holds(s.proxy, h, on) {
      if msg.sub.Some? {
        assert h.held + map[msg.sub.value := h.held[on]] == h.held[msg.sub.value := h.held[on]];
        assert h.held[msg.sub.value := h.held[on]] - {} == h.held[msg.sub.value := h.held[on]];
        assert msg.name == ATTACHED ==> Given(s, h, e) == map[msg.sub.value := h.held[on]];
        assert msg.name == DETACHED ==> Given(s, h, e) == map[] && Taken(s, h, e) == {msg.sub.value};
      }
      assert Inv(s.proxy) by { InvOf(s); }
      SharedTells(s.proxy, msg, h);
      hide FromNotice;
    }
  }

  lemma InvOf(s: Sys)
    requires SysInv(s)
    ensures Inv(s.proxy) && Traced(s.proxy, s.past.used, s.past.answered)
  {
  }

  lemma RootNoticeTells(s: Sys, e: Event, h: History)
    requires SysInv(s) && Tells(s.proxy, h)
    requires e.FromBrave? && s.proxy.pipe == Some(e.pipe) && e.msg.Notice? && e.msg.session.None?
    ensures Tells(FromNotice(s.proxy, e.msg).proxy, After(s, h, e))
  {
    var msg := e.msg;
    assert (h.held + map[]) - {} == h.held;
    InvOf(s);
    hide Tells, SysInv, CloseClient, Inv;
    if msg.sub.Some? && Owned(s.proxy, msg.sub.value) { CloseTells(s.proxy, s.proxy.owner[msg.sub.value].client, true, h); }
  }

  // ── every event ──

  lemma AcceptTells(s: Proxy, c: nat, h: History)
    requires Tells(s, h) && Enabled(s, Accept(c)) && c !in h.seats && Inv(s) && forall sid :: sid in h.held ==> h.held[sid] in s.clients
    ensures Tells(Next(s, Accept(c)).proxy, h)
  {
  }

  lemma EndTells(s: Proxy, h: History)
    requires Tells(s, h)
    ensures Tells(PipeClosed(s).proxy, h) && Tells(PipeClosed(s.(open := false)).proxy, h)
  {
    hide OpenClients;
  }

  lemma PipeTells(s: Proxy, e: Event, h: History)
    requires Inv(s) && Tells(s, h) && e.SetPipe? && Enabled(s, e)
    ensures Tells(Next(s, e).proxy, h.(held := map[]))
  {
    assert Next(s, e).proxy.owner == map[];
    hide OpenClients;
  }

  ghost predicate UsersKnown(used: map<nat, Use>, known: set<nat>) {
    forall id :: id in used && used[id].By? ==> used[id].client in known
  }

  /** What happened happened to clients that came. */
  ghost predicate Known(s: Sys, h: History) {
    && h.seats.Keys <= s.proxy.clients.Keys && (forall sid :: sid in h.held ==> h.held[sid] in s.proxy.clients)
    && UsersKnown(s.past.used, s.proxy.clients.Keys)
  }

  ghost predicate Told(s: Sys, h: History) {
    SysInv(s) && Tells(s.proxy, h) && Awaited(s.proxy, s.past.used, s.past.answered) && Known(s, h)
  }

  lemma BraveTells(s: Sys, e: Event, h: History)
    requires Told(s, h) && e.FromBrave? && Unshared(s, h, e)
    ensures Tells(Next(s.proxy, e).proxy, After(s, h, e))
  {
    assert (h.held + map[]) - {} == h.held;
    hide Tells, FromReply, FromNotice, SysInv, Awaited;
    if s.proxy.pipe == Some(e.pipe) {
      if e.msg.Reply? { ReplyTells(s, e, h); }
      else if e.msg.session.None? { RootNoticeTells(s, e, h); }
      else { NoticeTells(s, e, h); }
    }
  }

  lemma SentTells(s: Sys, e: Event, h: History)
    requires Told(s, h) && e.ClientSent? && Enabled(s.proxy, e)
    ensures Tells(Next(s.proxy, e).proxy, h)
  {
    InvOf(s);
    if Open(s.proxy, e.client) && s.proxy.clients[e.client].browserSession.Some? {
      FromClientTells(s.proxy, e.client, e.data, h);
      hide Tells, FromClient;
    } else if Open(s.proxy, e.client) {
      DataTells(s.proxy, e.client, e.data, h);
      hide Tells;
    }
  }

  lemma DataTells(s: Proxy, c: nat, data: ClientData, h: History)
    requires Tells(s, h) && Open(s, c)
    ensures Tells(Data(s, c, data), h)
  {
  }

  lemma TellsKept(s: Sys, e: Event, h: History)
    requires Told(s, h) && Enabled(s.proxy, e) && Unshared(s, h, e)
    ensures Tells(Next(s.proxy, e).proxy, After(s, h, e))
  {
    assert (h.held + map[]) - {} == h.held;
    InvOf(s);
    hide Tells, Inv, Attached, FromClient, CloseClient, FromReply, FromNotice, PipeClosed, SysInv;
    match e
    case Accept(c) => AcceptTells(s.proxy, c, h);
    case ClientSent(_, _) => SentTells(s, e, h);
    case AttachOver(c, sid) => AttachedTells(s, c, sid, h);
    case ClientGone(c) => CloseTells(s.proxy, c, false, h);
    case FromBrave(_, _) => BraveTells(s, e, h);
    case SetPipe(_, _, _) => PipeTells(s.proxy, e, h);
    case PipeEnded(_) => EndTells(s.proxy, h);
    case TakeId => CallTells(s.proxy, None, h);
  }

  lemma SentAwaited(s: Sys, e: Event)
    requires SysInv(s) && Awaited(s.proxy, s.past.used, s.past.answered) && e.ClientSent? && Enabled(s.proxy, e)
    ensures var d := Next(s.proxy, e); Awaited(d.proxy, Noted(s.past.used, d.outs), s.past.answered)
  {
    if Open(s.proxy, e.client) && s.proxy.clients[e.client].browserSession.Some? {
      FromClientAwaited(s.proxy, e.client, e.data, s.past.used, s.past.answered);
      hide FromClient;
    }
  }

  lemma NoticeAwaited(s: Sys, msg: BrowserMsg)
    requires SysInv(s) && Awaited(s.proxy, s.past.used, s.past.answered) && msg.Notice? && s.proxy.pipe.Some?
    ensures var d := FromNotice(s.proxy, msg); Awaited(d.proxy, Noted(s.past.used, d.outs), s.past.answered)
  {
    if msg.session.None? {
      if msg.sub.Some? && Owned(s.proxy, msg.sub.value) {
        CloseAwaited(s.proxy, s.proxy.owner[msg.sub.value].client, true, s.past.used, s.past.answered);
        hide DropClient;
      }
    } else {
      var d := FromNotice(s.proxy, msg);
      if d.outs != [] { NotedOne(s.past.used, d.outs[0]); }
    }
  }

  lemma PipeAwaited(s: Sys, e: Event)
    requires (e.PipeEnded? || e.SetPipe?) && Awaited(s.proxy, s.past.used, s.past.answered) && Enabled(s.proxy, e)
    ensures Awaited(Step(s, e).proxy, Step(s, e).past.used, Step(s, e).past.answered)
  {
    if e.PipeEnded? { NotedOne(s.past.used, ShutAll(OpenClients(s.proxy.clients))); }
    hide OpenClients;
  }

  lemma RootAwaited(s: Sys, e: Event)
    requires SysInv(s) && Awaited(s.proxy, s.past.used, s.past.answered) && Enabled(s.proxy, e) && (e.Accept? || e.TakeId?)
    requires UsersKnown(s.past.used, s.proxy.clients.Keys)
    ensures var d := Next(s.proxy, e); Awaited(d.proxy, Noted(s.past.used, d.outs), s.past.answered)
  {
    NotedOne(s.past.used, Next(s.proxy, e).outs[0]);
  }

  lemma BraveAwaited(s: Sys, e: Event)
    requires SysInv(s) && Awaited(s.proxy, s.past.used, s.past.answered) && e.FromBrave? && Enabled(s.proxy, e)
    ensures var d := Next(s.proxy, e); Awaited(d.proxy, Noted(s.past.used, d.outs), s.past.answered + Answers(s.proxy, e))
  {
    if s.proxy.pipe == Some(e.pipe) {
      if e.msg.Reply? {
        ReplyAwaited(s.proxy, e.msg, s.past.used, s.past.answered);
        var d := FromReply(s.proxy, e.msg);
        if d.outs != [] { NotedOne(s.past.used, d.outs[0]); }
        assert d.outs == [] || (d.outs == [d.outs[0]] && d.outs[0].Deliver?);
        assert Noted(s.past.used, d.outs) == s.past.used;
        hide FromReply, Noted, SysInv;
      } else {
        NoticeAwaited(s, e.msg);
        assert s.past.answered + {} == s.past.answered;
        hide FromNotice, SysInv;
      }
    } else {
      assert s.past.answered + {} == s.past.answered;
    }
  }

  lemma AwaitedKept(s: Sys, e: Event)
    requires SysInv(s) && Awaited(s.proxy, s.past.used, s.past.answered) && Enabled(s.proxy, e)
    requires UsersKnown(s.past.used, s.proxy.clients.Keys)
    ensures Awaited(Step(s, e).proxy, Step(s, e).past.used, Step(s, e).past.answered)
  {
    assert s.past.answered + {} == s.past.answered;
    InvOf(s);
    hide SysInv, Awaited, UsersKnown, Attached, FromClient, CloseClient, FromReply, FromNotice, PipeClosed, Noted, Traced, Inv;
    match e
    case ClientSent(_, _) => SentAwaited(s, e);
    case AttachOver(c, sid) => AttachedAwaited(s, c, sid);
    case ClientGone(c) => CloseAwaited(s.proxy, c, false, s.past.used, s.past.answered);
    case FromBrave(_, _) => BraveAwaited(s, e);
    case SetPipe(_, _, _) => PipeAwaited(s, e);
    case PipeEnded(_) => PipeAwaited(s, e);
    case _ => RootAwaited(s, e);
  }

  lemma {:induction false} NotedKnown(used: map<nat, Use>, outs: seq<Out>, known: set<nat>)
    requires UsersKnown(used, known) && forall o :: o in outs && o.Forward? ==> o.sender in known
    ensures UsersKnown(Noted(used, outs), known)
    decreases |outs|
  {
    if outs != [] {
      var o := outs[0];
      assert o in outs && forall x :: x in outs[1..] ==> x in outs;
      match o
      case Forward(id, c, session, msg) => NotedKnown(used[id := By(c, session, msg)], outs[1..], known);
      case RootCall(id, _) => NotedKnown(used[id := ByRoot], outs[1..], known);
      case _ => NotedKnown(used, outs[1..], known);
    }
  }

  lemma {:induction false} FlushSender(s: Proxy, c: nat, queue: seq<ClientData>, o: Out)
    requires c in s.clients && s.pipe.Some? && (Open(s, c) ==> s.clients[c].browserSession.Some?)
    requires o in Flush(s, c, queue).outs && o.Forward?
    ensures o.sender == c
    decreases |queue|
  {
    if queue != [] {
      FromClientKeeps(s, c, queue[0]);
      var d := FromClient(s, c, queue[0]);
      if o !in d.outs { FlushSender(d.proxy, c, queue[1..], o); }
    }
  }

  lemma SenderKnown(s: Proxy, e: Event, o: Out)
    requires Inv(s) && Enabled(s, e) && o in Next(s, e).outs && o.Forward?
    ensures o.sender in s.clients
  {
    if e.AttachOver? && e.sid.Some? && Open(s, e.client) {
      FlushSender(Seated(s, e.client, e.sid.value), e.client, s.clients[e.client].queue, o);
    }
  }

  lemma {:induction false} FlushStay(s: Proxy, c: nat, queue: seq<ClientData>)
    requires c in s.clients && s.pipe.Some? && (Open(s, c) ==> s.clients[c].browserSession.Some?)
    ensures Flush(s, c, queue).proxy.clients.Keys == s.clients.Keys
    decreases |queue|
  {
    if queue != [] {
      FromClientKeeps(s, c, queue[0]);
      FlushStay(FromClient(s, c, queue[0]).proxy, c, queue[1..]);
    }
  }

  /** No client is ever taken out of the table. */
  lemma ClientsStay(s: Proxy, e: Event)
    requires Inv(s) && Enabled(s, e)
    ensures s.clients.Keys <= Next(s, e).proxy.clients.Keys
  {
    hide OpenClients;
    if e.AttachOver? && e.sid.Some? && Open(s, e.client) {
      FlushStay(Seated(s, e.client, e.sid.value), e.client, s.clients[e.client].queue);
      hide Flush;
    }
  }

  lemma GivenKnown(s: Sys, e: Event, h: History)
    requires Known(s, h) && Enabled(s.proxy, e)
    ensures var h' := After(s, h, e); h'.seats.Keys <= s.proxy.clients.Keys && forall sid :: sid in h'.held ==> h'.held[sid] in s.proxy.clients
  {
  }

  lemma UsersStay(s: Sys, e: Event)
    requires SysInv(s) && Enabled(s.proxy, e) && UsersKnown(s.past.used, s.proxy.clients.Keys)
    ensures UsersKnown(Step(s, e).past.used, s.proxy.clients.Keys)
  {
    InvOf(s);
    forall o | o in Next(s.proxy, e).outs && o.Forward? ensures o.sender in s.proxy.clients { SenderKnown(s.proxy, e, o); }
    NotedKnown(s.past.used, Next(s.proxy, e).outs, s.proxy.clients.Keys);
    hide SysInv, Inv, Traced, Next, Noted;
  }

  lemma KnownKept(s: Sys, e: Event, h: History)
    requires Told(s, h) && Enabled(s.proxy, e)
    ensures Known(Step(s, e), After(s, h, e))
  {
    InvOf(s);
    hide SysInv, Inv, Traced, Tells, Awaited, Next, Noted, After;
    ClientsStay(s.proxy, e);
    GivenKnown(s, e, h);
    UsersStay(s, e);
  }

  lemma ToldKept(s: Sys, e: Event, h: History)
    requires Told(s, h) && Enabled(s.proxy, e) && Unshared(s, h, e)
    ensures Told(Step(s, e), After(s, h, e))
  {
    TellsKept(s, e, h);
    AwaitedKept(s, e);
    KnownKept(s, e, h);
    StepKept(s, e);
    hide SysInv, Tells, Awaited, Next, After, Unshared;
  }

  // ── runs ──

  const NOTHING := History(map[], map[])

  lemma {:induction false} ToldOverRun(s0: Sys, h0: History, events: seq<Event>, s: Sys, h: History)
    requires Told(s0, h0) && Follows(s0, h0, events, s, h)
    ensures Told(s, h)
    decreases |events|
  {
    if events != [] {
      hide Told, Step, After, Unshared;
      ToldKept(s0, events[0], h0);
      ToldOverRun(Step(s0, events[0]), After(s0, h0, events[0]), events[1..], s, h);
    }
  }

  lemma RunTold(s0: Sys, events: seq<Event>, s: Sys, h: History)
    requires Init(s0) && Follows(s0, NOTHING, events, s, h)
    ensures Told(s, h)
  {
    assert Told(s0, NOTHING);
    hide Told, Init;
    ToldOverRun(s0, NOTHING, events, s, h);
  }

  /** A notice Brave sends on a session that a client holds reaches that client and nobody else, once, with Brave's name, sub-session
      and content; it shows the session unless it is the client's own browser session. On any other session it reaches nobody. */
  lemma NoticeReachesHolder(s0: Sys, events: seq<Event>, s: Sys, h: History, p: nat, msg: BrowserMsg)
    requires Init(s0) && Follows(s0, NOTHING, events, s, h)
    requires s.proxy.pipe == Some(p) && msg.Notice? && msg.session.Some?
    ensures var outs := Next(s.proxy, FromBrave(p, msg)).outs;
      if !Holds(s.proxy, h, msg.session.value) then outs == []
      else
        && |outs| == 1 && outs[0].Deliver? && outs[0].client == h.held[msg.session.value] && outs[0].msg.Event?
        && outs[0].msg.name == msg.name && outs[0].msg.sub == msg.sub && outs[0].msg.content == msg.content
        && (outs[0].msg.session.None? <==> Seat(h, outs[0].client) == msg.session)
        && (outs[0].msg.session.Some? ==> outs[0].msg.session == msg.session)
  {
    RunTold(s0, events, s, h);
    hide Init, Follows, SysInv, Awaited, Known, Exact;
  }

  /** No other notice is delivered: not one of the root session, and none of another pipe. */
  lemma RootNoticesStayInside(s: Proxy, p: nat, msg: BrowserMsg, o: Out)
    requires msg.Notice? && (msg.session.None? || s.pipe != Some(p)) && o in Next(s, FromBrave(p, msg)).outs
    ensures !o.Deliver?
  {
  }

  /** Brave's first reply to a command whose client is still there is delivered, to that client alone, with its own id and the session
      it named: Brave's error if there is one, else its result. */
  lemma AnswerIsDelivered(s0: Sys, events: seq<Event>, s: Sys, h: History, p: nat, msg: BrowserMsg)
    requires Init(s0) && Follows(s0, NOTHING, events, s, h)
    requires s.proxy.pipe == Some(p) && msg.Reply? && Asked(s, msg.id) && Open(s.proxy, s.past.used[msg.id].client)
    ensures var outs, use := Next(s.proxy, FromBrave(p, msg)).outs, s.past.used[msg.id];
      && |outs| == 1 && outs[0].Deliver? && outs[0].client == use.client && outs[0].msg.Answer?
      && outs[0].msg.id == use.msg.id && outs[0].msg.session == use.msg.session
      && (msg.error.Some? ==> outs[0].msg.outcome == Failed(msg.error.value))
      && (msg.error.None? ==> outs[0].msg.outcome == Result(msg.content, msg.attached))
  {
    RunTold(s0, events, s, h);
    AwaitedIs(s, msg.id);
    hide Init, Follows, SysInv, Awaited, Known, Tells;
  }

  /** The request asks for a session its client does not hold: the one it names, or the one an outer Target.sendMessageToTarget names. */
  predicate Foreign(s: Proxy, h: History, c: nat, msg: Msg) {
    || (msg.cmd.name == SEND_TO_TARGET && msg.cmd.params.Envelope? && msg.cmd.params.session.Some? &&
          !(Holds(s, h, msg.cmd.params.session.value) && h.held[msg.cmd.params.session.value] == c))
    || (msg.session.Some? && !(Holds(s, h, msg.session.value) && h.held[msg.session.value] == c))
  }

  predicate Harmless(cmd: Cmd) {
    (forall m :: m in CdpMessages.Runs(cmd) ==> !Blocked(m)) && ProperlyWrapped(cmd) && Layers(cmd) <= MAX_WRAPPED_DEPTH
  }

  /** A request of a client that has its browser session has exactly one outcome. It is refused if it would run something blocked, or is
      not wrapped as it must be; else it is answered that there is no such session if it asks for one the client does not hold; else
      it goes to Brave as it is, on the session it names or on the client's browser session, under an id nobody used. */
  lemma RequestIsServed(s0: Sys, events: seq<Event>, s: Sys, h: History, c: nat, msg: Msg)
    requires Init(s0) && Follows(s0, NOTHING, events, s, h)
    requires Open(s.proxy, c) && Seat(h, c).Some? && Enabled(s.proxy, ClientSent(c, Request(msg)))
    ensures var outs := Next(s.proxy, ClientSent(c, Request(msg))).outs;
      && |outs| == 1
      && (!Harmless(msg.cmd) ==> exists why :: outs[0] == Deliver(c, Answer(msg.id, Refused(why), msg.session)))
      && (Harmless(msg.cmd) && Foreign(s.proxy, h, c, msg) ==> outs[0] == Deliver(c, Answer(msg.id, NoSession, msg.session)))
      && (Harmless(msg.cmd) && !Foreign(s.proxy, h, c, msg) ==>
            && outs[0].Forward? && outs[0].sender == c && outs[0].request == msg && outs[0].id !in s.past.used
            && Some(outs[0].session) == if msg.session.Some? then msg.session else Seat(h, c))
  {
    RunTold(s0, events, s, h);
    GuardIsExact(msg.cmd, 0);
    OwnerIsHolder(s, h, c);
    hide Init, Follows, SysInv, Awaited, Known, Tells, BlockedInside, CdpMessages.Runs, Layers, Holds;
    assert SeatsTell(s.proxy, h) && Traced(s.proxy, s.past.used, s.past.answered) by { PartsTold(s, h); }
    hide ProperlyWrapped;
    if Harmless(msg.cmd) && msg.cmd.name == SEND_TO_TARGET { Envelopes(msg.cmd); }
  }

  lemma Envelopes(cmd: Cmd)
    requires ProperlyWrapped(cmd) && cmd.name == SEND_TO_TARGET
    ensures cmd.params.Envelope? && cmd.params.session.Some?
  {
  }

  lemma PartsTold(s: Sys, h: History)
    requires Told(s, h)
    ensures SeatsTell(s.proxy, h) && Traced(s.proxy, s.past.used, s.past.answered) && Inv(s.proxy)
  {
  }

  lemma OwnerIsHolder(s: Sys, h: History, c: nat)
    requires Told(s, h) && Open(s.proxy, c)
    ensures forall sid :: OwnerOf(s.proxy, sid) == Some(c) <==> Holds(s.proxy, h, sid) && h.held[sid] == c
  {
  }

  // ── what waits for the browser session ──

  lemma {:induction false} FlushMore(s: Proxy, c: nat, queue: seq<ClientData>, data: ClientData)
    requires c in s.clients && s.pipe.Some? && (Open(s, c) ==> s.clients[c].browserSession.Some?)
    ensures var d := Flush(s, c, queue);
      && c in d.proxy.clients && d.proxy.pipe == s.pipe && (Open(d.proxy, c) ==> d.proxy.clients[c].browserSession.Some?)
      && var last := FromClient(d.proxy, c, data);
      Flush(s, c, queue + [data]) == Done(last.proxy, d.outs + last.outs)
    decreases |queue|
  {
    if queue == [] {
      assert queue + [data] == [data] && [data][1..] == [];
      var last := FromClient(s, c, data);
      assert last.outs + [] == last.outs && [] + last.outs == last.outs;
      FromClientKeeps(s, c, data);
      hide FromClient;
    } else {
      assert (queue + [data])[1..] == queue[1..] + [data] && (queue + [data])[0] == queue[0];
      FromClientKeeps(s, c, queue[0]);
      hide FromClient;
      FlushMore(FromClient(s, c, queue[0]).proxy, c, queue[1..], data);
      var one := FromClient(s, c, queue[0]);
      var d := Flush(one.proxy, c, queue[1..]);
      var last := FromClient(d.proxy, c, data);
      assert one.outs + (d.outs + last.outs) == (one.outs + d.outs) + last.outs;
    }
  }

  lemma SeatedEmpties(s: Proxy, c: nat, data: ClientData, sid: Sid)
    requires Open(s, c) && s.pipe.Some?
    ensures Seated(Data(s, c, data), c, sid) == Seated(s, c, sid)
  {
    assert Seated(Data(s, c, data), c, sid).clients == Seated(s, c, sid).clients;
  }

  /** A message that comes before the client has its browser session does what it would do right after: everything that waited is
      handled once, in the order it came. */
  lemma WaitingChangesNothing(s: Proxy, c: nat, data: ClientData, sid: Sid)
    requires Inv(s) && Open(s, c) && Enabled(s, AttachOver(c, Some(sid))) && Enabled(s, ClientSent(c, data))
    ensures var waits, seated := Next(s, ClientSent(c, data)), Next(s, AttachOver(c, Some(sid)));
      && waits.outs == [] && Enabled(waits.proxy, AttachOver(c, Some(sid))) && Enabled(seated.proxy, ClientSent(c, data))
      && var last := Next(seated.proxy, ClientSent(c, data));
      Next(waits.proxy, AttachOver(c, Some(sid))) == Done(last.proxy, seated.outs + last.outs)
  {
    SeatedEmpties(s, c, data, sid);
    SeatIs(s, c, sid);
    FlushMore(Seated(s, c, sid), c, s.clients[c].queue, data);
    assert s.pipe == Some(s.clients[c].pipe);
    var d := Flush(Seated(s, c, sid), c, s.clients[c].queue);
    assert d.outs + [] == d.outs;
    hide Inv, Seated, Flush, FromClient;
    if !Open(d.proxy, c) { ClosedSendsNothing(d.proxy, c, data); }
  }

  lemma ClosedSendsNothing(s: Proxy, c: nat, data: ClientData)
    requires c in s.clients && s.pipe.Some? && !Open(s, c)
    ensures FromClient(s, c, data) == Done(s, [])
  {
  }

  // ── ends ──

  /** A client that leaves is forgotten with all it held and asked for, and Brave is told to detach its browser session, if it had
      one: on the pipe served then, and only while that is open. */
  lemma LeavingDetaches(s0: Sys, events: seq<Event>, s: Sys, h: History, c: nat)
    requires Init(s0) && Follows(s0, NOTHING, events, s, h) && Open(s.proxy, c)
    ensures var d := Next(s.proxy, ClientGone(c));
      && d.outs == (if Seat(h, c).Some? then [RootCall(s.proxy.nextId, Seat(h, c))] else [])
      && !Open(d.proxy, c)
      && (forall sid :: sid in d.proxy.owner <==> Holds(s.proxy, h, sid) && h.held[sid] != c)
      && (forall id :: id in d.proxy.pending <==> id in s.proxy.pending && s.proxy.pending[id].client != c)
  {
    RunTold(s0, events, s, h);
    PartsTold(s, h);
    hide Init, Follows, SysInv, Awaited, Known;
  }

  /** When the pipe served ends, exactly the websockets still open are closed, and nothing is routed any more. */
  lemma EndClosesAll(s: Proxy, p: nat)
    requires s.pipe == Some(p)
    ensures var d := Next(s, PipeEnded(p));
      && (forall o :: o in d.outs ==> o.ShutAll? && forall c :: c in o.gone <==> Open(s, c))
      && (d.outs == [] <==> forall c :: !Open(s, c)) && |d.outs| <= 1
      && (forall c :: !Open(d.proxy, c)) && d.proxy.owner == map[] && d.proxy.pending == map[] && !d.proxy.open
  {
    assert forall c :: c in OpenClients(s.clients) <==> Open(s, c);
    if c :| Open(s, c) { assert c in OpenClients(s.clients); }
  }
}
