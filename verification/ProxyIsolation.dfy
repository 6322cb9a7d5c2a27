// Isolation: a client sees what it would see if the proxy served it alone, and the
// other clients' commands were calls of the broker's own.
module ProxyIsolation {
  import opened Cookies
  import opened CdpMessages
  import opened ProxySteps
  import opened ProxyInvariant
  import opened ProxyRouting

  ghost function OtherIds(s: Proxy, c: nat): set<nat> {
    set id | id in s.pending && s.pending[id].client != c
  }

  ghost function OtherSessions(s: Proxy, c: nat): set<Sid> {
    set sid | sid in s.owner && s.owner[sid].client != c
  }

  /** The proxy without its other clients. */
  ghost function Solo(s: Proxy, c: nat): Proxy {
    s.(pending := s.pending - OtherIds(s, c), owner := s.owner - OtherSessions(s, c),
        clients := s.clients - (s.clients.Keys - {c}))
  }

  /** A client's sessions are exactly those it owns. */
  ghost predicate Exact(s: Proxy) {
    forall c, sid :: Open(s, c) && sid in s.clients[c].sessions ==> sid in s.owner && s.owner[sid].client == c
  }

  /** Brave announces a session to one client only, and says a session is detached on a session of the same client. */
  ghost predicate Fresh(s: Proxy, e: Event) {
    && (forall a :: a in Announced(s, e) && a.0 in s.owner ==> s.owner[a.0].client == a.1)
    && (e.FromBrave? && e.msg.Notice? && e.msg.name == DETACHED && e.msg.session.Some? && e.msg.sub.Some?
        && e.msg.session.value in s.owner && e.msg.sub.value in s.owner ==>
          s.owner[e.msg.sub.value].client == s.owner[e.msg.session.value].client)
  }

  /** Is this event the client's own? Pipes coming and going are everyone's. */
  predicate Concerns(s: Proxy, e: Event, c: nat) {
    match e
    case Accept(d) => d == c
    case ClientSent(d, _) => d == c
    case AttachOver(d, _) => d == c
    case ClientGone(d) => d == c
    case FromBrave(p, Reply(id, _, _, _)) => s.pipe == Some(p) && id in s.pending && s.pending[id].client == c
    case FromBrave(p, Notice(Some(sid), _, _, _)) => s.pipe == Some(p) && OwnerOf(s, sid) == Some(c)
    case FromBrave(p, Notice(None, _, sub, _)) => s.pipe == Some(p) && sub.Some? && OwnerOf(s, sub.value) == Some(c)
    case SetPipe(_, _, _) => true
    case PipeEnded(_) => true
    case TakeId => false
  }

  // ── the client's own events ──

  lemma SoloHas(s: Proxy, c: nat)
    ensures var t := Solo(s, c);
            && (forall id :: id in t.pending <==> id in s.pending && s.pending[id].client == c)
            && (forall id :: id in t.pending ==> t.pending[id] == s.pending[id])
            && (forall sid :: sid in t.owner <==> sid in s.owner && s.owner[sid].client == c)
            && (forall sid :: sid in t.owner ==> t.owner[sid] == s.owner[sid])
            && (forall d :: d in t.clients <==> d in s.clients && d == c)
            && (c in s.clients ==> t.clients[c] == s.clients[c])
            && t.pipe == s.pipe && t.open == s.open && t.nextId == s.nextId
  {
  }

  /** What Solo is, from what it holds. */
  lemma IsSolo(s: Proxy, c: nat, t: Proxy)
    requires t.pipe == s.pipe && t.open == s.open && t.nextId == s.nextId
    requires forall id :: id in t.pending <==> id in s.pending && s.pending[id].client == c
    requires forall id :: id in t.pending ==> t.pending[id] == s.pending[id]
    requires forall sid :: sid in t.owner <==> sid in s.owner && s.owner[sid].client == c
    requires forall sid :: sid in t.owner ==> t.owner[sid] == s.owner[sid]
    requires forall d :: d in t.clients <==> d in s.clients && d == c
    requires c in s.clients ==> t.clients[c] == s.clients[c]
    ensures t == Solo(s, c)
  {
    SoloHas(s, c);
    assert t.pending == Solo(s, c).pending;
    assert t.owner == Solo(s, c).owner;
    assert t.clients == Solo(s, c).clients;
  }

  lemma WithoutSolo(s: Proxy, c: nat)
    requires Inv(s) && Exact(s) && Open(s, c)
    ensures c in Solo(s, c).clients && Without(Solo(s, c), c) == Solo(Without(s, c), c)
  {
    SoloHas(s, c);
    hide Solo;
    IsSolo(Without(s, c), c, Without(Solo(s, c), c));
  }

  lemma CountedSolo(s: Proxy, c: nat, n: nat)
    ensures Solo(s.(nextId := n), c) == Solo(s, c).(nextId := n)
  {
  }

  lemma CloseSolo(s: Proxy, c: nat, detached: bool)
    requires Inv(s) && Exact(s) && c in s.clients
    ensures c in Solo(s, c).clients
    ensures var d := CloseClient(s, c, detached); CloseClient(Solo(s, c), c, detached) == Done(Solo(d.proxy, c), d.outs)
  {
    SoloHas(s, c);
    if !s.clients[c].closed {
      WithoutSolo(s, c);
      CountedSolo(Without(s, c), c, s.nextId + 1);
    }
    hide Solo, Without;
  }

  lemma SentSolo(s: Proxy, c: nat, entry: Entry)
    requires entry.client == c && forall id :: id in s.pending ==> id < s.nextId
    ensures Sent(Solo(s, c), entry) == Solo(Sent(s, entry), c)
  {
    SoloHas(s, c);
    hide Solo;
    IsSolo(Sent(s, entry), c, Sent(Solo(s, c), entry));
  }

  lemma RouteSolo(s: Proxy, c: nat, msg: Msg)
    requires Open(s, c) && s.clients[c].browserSession.Some? && s.pipe.Some?
    requires forall id :: id in s.pending ==> id < s.nextId
    ensures Open(Solo(s, c), c) && Solo(s, c).clients[c] == s.clients[c]
    ensures var d := Route(s, c, msg); Route(Solo(s, c), c, msg) == Done(Solo(d.proxy, c), d.outs)
  {
    SoloHas(s, c);
    SentSolo(s, c, Entry(c, msg.id, msg.cmd.name, msg.session, s.pipe.value));
    assert forall sid :: OwnerOf(Solo(s, c), sid) == Some(c) <==> OwnerOf(s, sid) == Some(c);
    hide Solo, Sent, BlockedInside, OwnerOf;
  }

  lemma FromClientSolo(s: Proxy, c: nat, data: ClientData)
    requires Inv(s) && Exact(s) && c in s.clients && s.pipe.Some? && (Open(s, c) ==> s.clients[c].browserSession.Some?)
    ensures c in Solo(s, c).clients && Solo(s, c).clients[c] == s.clients[c]
    ensures var d := FromClient(s, c, data); FromClient(Solo(s, c), c, data) == Done(Solo(d.proxy, c), d.outs)
  {
    SoloHas(s, c);
    if Open(s, c) {
      if data.Request? { RouteSolo(s, c, data.msg); } else { CloseSolo(s, c, false); }
    }
    hide Solo, Route, CloseClient;
  }

  lemma OwnSolo(s: Proxy, sid: Sid, c: nat)
    requires c in s.clients && s.pipe.Some?
    ensures c in Solo(s, c).clients && Own(Solo(s, c), sid, c) == Solo(Own(s, sid, c), c)
  {
    SoloHas(s, c);
    hide Solo;
    IsSolo(Own(s, sid, c), c, Own(Solo(s, c), sid, c));
  }

  lemma SeatedSolo(s: Proxy, c: nat, sid: Sid)
    requires c in s.clients && s.pipe.Some?
    ensures c in Solo(s, c).clients && Seated(Solo(s, c), c, sid) == Solo(Seated(s, c, sid), c)
  {
    SoloHas(s, c);
    hide Solo;
    IsSolo(Seated(s, c, sid), c, Seated(Solo(s, c), c, sid));
  }

  lemma CloseExact(s: Proxy, c: nat, detached: bool)
    requires Inv(s) && Exact(s) && c in s.clients
    ensures Exact(CloseClient(s, c, detached).proxy)
  {
  }

  lemma FromClientExact(s: Proxy, c: nat, data: ClientData)
    requires Inv(s) && Exact(s) && c in s.clients && s.pipe.Some? && (Open(s, c) ==> s.clients[c].browserSession.Some?)
    ensures Exact(FromClient(s, c, data).proxy)
  {
    if Open(s, c) && !data.Request? { CloseExact(s, c, false); }
  }

  lemma {:induction false} FlushSolo(s: Proxy, c: nat, queue: seq<ClientData>)
    requires Inv(s) && Exact(s) && c in s.clients && s.pipe.Some? && (Open(s, c) ==> s.clients[c].browserSession.Some?)
    ensures c in Solo(s, c).clients && Solo(s, c).clients[c] == s.clients[c]
    ensures var d := Flush(s, c, queue); Flush(Solo(s, c), c, queue) == Done(Solo(d.proxy, c), d.outs) && Exact(d.proxy)
    decreases |queue|
  {
    SoloHas(s, c);
    if queue != [] {
      var d := FromClient(s, c, queue[0]);
      FromClientSolo(s, c, queue[0]);
      FromClientExact(s, c, queue[0]);
      FromClientInv(s, c, queue[0]);
      FromClientKeeps(s, c, queue[0]);
      FlushSolo(d.proxy, c, queue[1..]);
      hide Solo, FromClient, Inv, Exact;
    }
  }

  lemma SeatedExact(s: Proxy, d: nat, sid: Sid)
    requires Exact(s) && d in s.clients && s.pipe.Some? && (sid in s.owner ==> s.owner[sid].client == d)
    ensures Exact(Seated(s, d, sid))
  {
  }

  lemma LateSolo(s: Proxy, c: nat, sid: Option<Sid>)
    requires c in s.clients && s.pipe.Some? && sid.Some? && !(Open(s, c) && s.pipe == Some(s.clients[c].pipe)) &&
        s.clients[c].browserSession.None?
    ensures c in Solo(s, c).clients && Solo(s, c).clients[c] == s.clients[c]
    ensures var d := Attached(s, c, sid); Attached(Solo(s, c), c, sid) == Done(Solo(d.proxy, c), d.outs)
  {
    SoloHas(s, c);
    var s1 := s.(clients := s.clients[c := s.clients[c].(browserSession := sid)]);
    hide Solo;
    IsSolo(s1, c, Solo(s, c).(clients := Solo(s, c).clients[c := s.clients[c].(browserSession := sid)]));
    CountedSolo(s1, c, s.nextId + 1);
    hide Flush, Seated, DropClient;
  }

  lemma SettledSolo(s: Proxy, c: nat, sid: Sid)
    requires Inv(s) && Exact(s) && Enabled(s, AttachOver(c, Some(sid))) && Fresh(s, AttachOver(c, Some(sid)))
    requires Open(s, c) && s.pipe == Some(s.clients[c].pipe)
    ensures c in Solo(s, c).clients && Solo(s, c).clients[c] == s.clients[c]
    ensures var d := Flush(Seated(s, c, sid), c, s.clients[c].queue);
            Flush(Seated(Solo(s, c), c, sid), c, s.clients[c].queue) == Done(Solo(d.proxy, c), d.outs) && Exact(d.proxy)
  {
    SoloHas(s, c);
    SeatedInv(s, c, sid);
    SeatedSolo(s, c, sid);
    assert (sid, c) in Announced(s, AttachOver(c, Some(sid)));
    SeatedExact(s, c, sid);
    hide Solo, Exact, Inv, Fresh;
    FlushSolo(Seated(s, c, sid), c, s.clients[c].queue);
  }

  lemma AttachedSolo(s: Proxy, c: nat, sid: Option<Sid>)
    requires Inv(s) && Exact(s) && Enabled(s, AttachOver(c, sid)) && Fresh(s, AttachOver(c, sid))
    ensures c in Solo(s, c).clients && Solo(s, c).clients[c] == s.clients[c]
    ensures var d := Attached(s, c, sid); Attached(Solo(s, c), c, sid) == Done(Solo(d.proxy, c), d.outs)
  {
    SoloHas(s, c);
    if sid.None? {
      CloseSolo(s, c, false);
      hide Solo, CloseClient;
    } else if Open(s, c) && s.pipe == Some(s.clients[c].pipe) {
      SettledSolo(s, c, sid.value);
      hide Solo, Flush, Seated, Exact, Inv;
    } else {
      hide Solo, Attached;
      LateSolo(s, c, sid);
    }
  }

  lemma AttachedExact(s: Proxy, c: nat, sid: Option<Sid>)
    requires Inv(s) && Exact(s) && Enabled(s, AttachOver(c, sid)) && Fresh(s, AttachOver(c, sid))
    ensures Exact(Attached(s, c, sid).proxy)
  {
    if sid.None? {
      CloseExact(s, c, false);
      hide CloseClient;
    } else if Open(s, c) && s.pipe == Some(s.clients[c].pipe) {
      SettledSolo(s, c, sid.value);
      hide Flush, Seated, Exact, Inv;
    }
  }

  lemma AnsweredSolo(s: Proxy, c: nat, id: nat)
    requires id in s.pending && s.pending[id].client == c
    ensures Solo(s, c).(pending := Solo(s, c).pending - {id}) == Solo(s.(pending := s.pending - {id}), c)
  {
    SoloHas(s, c);
    hide Solo;
    IsSolo(s.(pending := s.pending - {id}), c, Solo(s, c).(pending := Solo(s, c).pending - {id}));
  }

  lemma ReplySolo(s: Proxy, c: nat, msg: BrowserMsg)
    requires Inv(s) && msg.Reply? && s.pipe.Some? && msg.id in s.pending && s.pending[msg.id].client == c
    ensures var d := FromReply(s, msg); FromReply(Solo(s, c), msg) == Done(Solo(d.proxy, c), d.outs)
  {
    SoloHas(s, c);
    AnsweredSolo(s, c, msg.id);
    var s1 := s.(pending := s.pending - {msg.id});
    if msg.attached.Some? { OwnSolo(s1, msg.attached.value, c); SoloHas(Own(s1, msg.attached.value, c), c); }
    SoloHas(s1, c);
    hide Solo, Own;
  }

  lemma DisownSolo(s: Proxy, c: nat, sid: Sid)
    requires sid in s.owner ==> s.owner[sid].client == c
    ensures Disown(Solo(s, c), sid) == Solo(Disown(s, sid), c)
  {
    SoloHas(s, c);
    hide Solo;
    IsSolo(Disown(s, sid), c, Disown(Solo(s, c), sid));
  }

  lemma NoticeSolo(s: Proxy, c: nat, e: Event)
    requires Inv(s) && Exact(s) && e.FromBrave? && e.msg.Notice? && Concerns(s, e, c) && Fresh(s, e)
    ensures var d := FromNotice(s, e.msg); FromNotice(Solo(s, c), e.msg) == Done(Solo(d.proxy, c), d.outs)
  {
    SoloHas(s, c);
    var msg := e.msg;
    if msg.session.None? {
      CloseSolo(s, c, true);
      hide Solo, CloseClient;
    } else if msg.name == ATTACHED && msg.sub.Some? {
      OwnSolo(s, msg.sub.value, c);
      SoloHas(Own(s, msg.sub.value, c), c);
      hide Solo, Own;
    } else if msg.name == DETACHED && msg.sub.Some? {
      DisownSolo(s, c, msg.sub.value);
      hide Solo, Disown;
    } else {
      hide Solo;
    }
  }

  lemma PipeClosedSolo(s: Proxy, c: nat)
    ensures PipeClosed(Solo(s, c)).proxy == Solo(PipeClosed(s).proxy, c)
  {
    SoloHas(s, c);
    hide Solo;
    IsSolo(PipeClosed(s).proxy, c, PipeClosed(Solo(s, c)).proxy);
  }

  lemma FlagsSolo(s: Proxy, c: nat, pipe: Option<nat>, open: bool, n: nat)
    ensures Solo(s.(pipe := pipe, open := open, nextId := n), c) == Solo(s, c).(pipe := pipe, open := open, nextId := n)
  {
  }

  lemma ShutSight(s: Proxy, c: nat)
    ensures Sight(PipeClosed(Solo(s, c)).outs, c) == Sight(PipeClosed(s).outs, c)
  {
    SoloHas(s, c);
    var all, own := OpenClients(s.clients), OpenClients(Solo(s, c).clients);
    assert own == if c in all then {c} else {};
    assert forall gone :: Sight([ShutAll(gone)], c) == if c in gone then [Shut(c)] else [] by {
      forall gone ensures Sight([ShutAll(gone)], c) == if c in gone then [Shut(c)] else [] {
        assert [ShutAll(gone)][1..] == [];
      }
    }
    hide Solo, OpenClients;
  }

  lemma PipeSolo(s: Proxy, c: nat, e: Event)
    requires Enabled(s, e) && (e.SetPipe? || e.PipeEnded?)
    ensures Enabled(Solo(s, c), e)
    ensures var d := Next(s, e);
      Next(Solo(s, c), e).proxy == Solo(d.proxy, c) && Sight(Next(Solo(s, c), e).outs, c) == Sight(d.outs, c)
  {
    SoloHas(s, c);
    PipeClosedSolo(s, c);
    if e.SetPipe? {
      var d := if s.open then PipeClosed(s) else Done(s, []);
      FlagsSolo(d.proxy, c, Some(e.pipe), !e.dead, e.nextId);
      var s1 := d.proxy.(pipe := Some(e.pipe), open := !e.dead, nextId := e.nextId);
      PipeClosedSolo(s1, c);
      ShutSight(s, c);
      ShutSight(s1, c);
      var d0 := if s.open then PipeClosed(Solo(s, c)) else Done(Solo(s, c), []);
      SightParts(d.outs, PipeClosed(s1).outs, c);
      SightParts(d0.outs, PipeClosed(Solo(s1, c)).outs, c);
    } else {
      FlagsSolo(s, c, s.pipe, false, s.nextId);
      PipeClosedSolo(s.(open := false), c);
      ShutSight(s.(open := false), c);
    }
    hide Solo, PipeClosed, Sight;
  }

  lemma QueuedSolo(s: Proxy, c: nat, data: ClientData)
    requires Open(s, c)
    ensures Open(Solo(s, c), c) && Data(Solo(s, c), c, data) == Solo(Data(s, c, data), c)
  {
    SoloHas(s, c);
    hide Solo;
    IsSolo(Data(s, c, data), c, Data(Solo(s, c), c, data));
  }

  lemma AcceptSolo(s: Proxy, c: nat)
    requires Enabled(s, Accept(c))
    ensures Enabled(Solo(s, c), Accept(c))
    ensures var d := Next(s, Accept(c)); Next(Solo(s, c), Accept(c)) == Done(Solo(d.proxy, c), d.outs)
  {
    SoloHas(s, c);
    hide Solo;
    IsSolo(Next(s, Accept(c)).proxy, c, Next(Solo(s, c), Accept(c)).proxy);
  }

  /** One of the client's own events does to its solo proxy what it does to the whole one. */
  lemma OwnEventSolo(s: Proxy, e: Event, c: nat)
    requires Inv(s) && Exact(s) && Enabled(s, e) && Fresh(s, e) && Concerns(s, e, c)
    ensures Enabled(Solo(s, c), e)
    ensures var d := Next(s, e);
      Next(Solo(s, c), e).proxy == Solo(d.proxy, c) && Sight(Next(Solo(s, c), e).outs, c) == Sight(d.outs, c)
  {
    SoloHas(s, c);
    match e
    case Accept(_) => AcceptSolo(s, c);
    case ClientSent(_, data) =>
      if Open(s, c) && s.clients[c].browserSession.None? { QueuedSolo(s, c, data); } else if Open(s,
          c) { FromClientSolo(s, c, data); }
      hide Solo, FromClient, Data;
    case AttachOver(_, sid) => AttachedSolo(s, c, sid); hide Solo, Attached;
    case ClientGone(_) => CloseSolo(s, c, false); hide Solo, CloseClient;
    case FromBrave(_, msg) =>
      if msg.Reply? { ReplySolo(s, c, msg); } else { NoticeSolo(s, c, e); }
      hide Solo, FromReply, FromNotice;
    case _ => PipeSolo(s, c, e);
  }

  // ── everyone else's events ──

  /** Another's event: it may only take message ids. */
  ghost predicate Unmoved(s: Proxy, d: Done, c: nat) {
    && Solo(d.proxy, c) == Solo(s, c).(nextId := d.proxy.nextId)
    && s.nextId <= d.proxy.nextId && (s.nextId < d.proxy.nextId ==> s.open) && d.proxy.open == s.open
    && forall o :: o in d.outs ==> !About(o, c)
  }

  /** What concerns client c: what it receives, what is forwarded for it, and its end. */
  predicate About(o: Out, c: nat) {
    match o
    case Deliver(d, _) => d == c
    case Forward(_, d, _, _) => d == c
    case Shut(d) => d == c
    case ShutAll(gone) => c in gone
    case RootCall(_, _) => false
  }

  /** What client c notices of these, in order: of many websockets closed, its own. */
  function Sight(outs: seq<Out>, c: nat): seq<Out>
    decreases |outs|
  {
    if outs == [] then []
    else (if !About(outs[0], c) then [] else if outs[0].ShutAll? then [Shut(c)] else [outs[0]]) + Sight(outs[1..], c)
  }

  lemma {:induction false} SightParts(a: seq<Out>, b: seq<Out>, c: nat)
    ensures Sight(a + b, c) == Sight(a, c) + Sight(b, c)
    decreases |a|
  {
    if a == [] {
      assert a + b == b;
    } else {
      assert (a + b)[1..] == a[1..] + b;
      SightParts(a[1..], b, c);
    }
  }

  lemma UnmovedThen(s: Proxy, d: Done, d2: Done, c: nat)
    requires Unmoved(s, d, c) && Unmoved(d.proxy, d2, c)
    ensures Unmoved(s, Done(d2.proxy, d.outs + d2.outs), c)
  {
    hide Solo, About;
  }

  lemma Untouched(s: Proxy, t: Proxy, c: nat)
    requires t.pipe == s.pipe && t.open == s.open
    requires forall id :: id in t.pending && t.pending[id].client == c <==> id in s.pending && s.pending[id].client == c
    requires forall id :: id in t.pending && t.pending[id].client == c ==> t.pending[id] == s.pending[id]
    requires forall sid :: sid in t.owner && t.owner[sid].client == c <==> sid in s.owner && s.owner[sid].client == c
    requires forall sid :: sid in t.owner && t.owner[sid].client == c ==> t.owner[sid] == s.owner[sid]
    requires c in t.clients <==> c in s.clients
    requires c in s.clients ==> t.clients[c] == s.clients[c]
    ensures Solo(t, c) == Solo(s, c).(nextId := t.nextId)
  {
    SoloHas(s, c);
    hide Solo;
    IsSolo(t, c, Solo(s, c).(nextId := t.nextId));
  }

  lemma CloseOther(s: Proxy, c: nat, d: nat, detached: bool)
    requires Inv(s) && Exact(s) && d in s.clients && d != c
    ensures Unmoved(s, CloseClient(s, d, detached), c) && Unmoved(s, DropClient(s, d, detached), c)
  {
    Untouched(s, CloseClient(s, d, detached).proxy, c);
    hide Solo;
  }

  lemma FromClientOther(s: Proxy, c: nat, d: nat, data: ClientData)
    requires Inv(s) && Exact(s) && d in s.clients && d != c && s.pipe.Some? && (Open(s, d) ==> s.clients[d].browserSession.Some?)
    ensures Unmoved(s, FromClient(s, d, data), c)
  {
    if Open(s, d) && !data.Request? {
      CloseOther(s, c, d, false);
    } else {
      Untouched(s, FromClient(s, d, data).proxy, c);
    }
    hide Solo;
  }

  lemma {:induction false} FlushOther(s: Proxy, c: nat, d: nat, queue: seq<ClientData>)
    requires Inv(s) && Exact(s) && d in s.clients && d != c && s.pipe.Some? && (Open(s, d) ==> s.clients[d].browserSession.Some?)
    ensures Unmoved(s, Flush(s, d, queue), c) && Exact(Flush(s, d, queue).proxy)
    decreases |queue|
  {
    if queue == [] {
      Untouched(s, s, c);
    } else {
      var one := FromClient(s, d, queue[0]);
      FromClientOther(s, c, d, queue[0]);
      FromClientExact(s, d, queue[0]);
      FromClientInv(s, d, queue[0]);
      FromClientKeeps(s, d, queue[0]);
      FlushOther(one.proxy, c, d, queue[1..]);
      UnmovedThen(s, one, Flush(one.proxy, d, queue[1..]), c);
      hide Inv, Exact, FromClient, Unmoved;
    }
  }

  lemma AttachedOther(s: Proxy, c: nat, d: nat, sid: Option<Sid>)
    requires Inv(s) && Exact(s) && d != c && Enabled(s, AttachOver(d, sid)) && Fresh(s, AttachOver(d, sid))
    ensures Unmoved(s, Attached(s, d, sid), c)
  {
    if sid.None? {
      CloseOther(s, c, d, false);
      hide Solo, CloseClient;
    } else if Open(s, d) && s.pipe == Some(s.clients[d].pipe) {
      assert (sid.value, d) in Announced(s, AttachOver(d, sid));
      var s1 := Seated(s, d, sid.value);
      SeatedInv(s, d, sid.value);
      SeatedExact(s, d, sid.value);
      Untouched(s, s1, c);
      FlushOther(s1, c, d, s.clients[d].queue);
      UnmovedThen(s, Done(s1, []), Flush(s1, d, s.clients[d].queue), c);
      hide Solo, Flush, Seated, Inv, Exact;
    } else {
      Untouched(s, Attached(s, d, sid).proxy, c);
      hide Solo;
    }
  }

  lemma ReplyOther(s: Proxy, e: Event, c: nat)
    requires Inv(s) && Enabled(s, e) && Fresh(s, e) && e.FromBrave? && e.msg.Reply? && s.pipe == Some(e.pipe) &&
        !Concerns(s, e, c)
    ensures Unmoved(s, Next(s, e), c)
  {
    assert e.msg.id in s.pending && e.msg.attached.Some? && Attaches(s.pending[e.msg.id].name) ==>
      (e.msg.attached.value, s.pending[e.msg.id].client) in Announced(s, e);
    Untouched(s, Next(s, e).proxy, c);
    hide Solo;
  }

  lemma NoticeOther(s: Proxy, e: Event, c: nat)
    requires Inv(s) && Enabled(s, e) && Fresh(s, e) && e.FromBrave? && e.msg.Notice? && s.pipe == Some(e.pipe) &&
        !Concerns(s, e, c)
    requires e.msg.session.Some?
    ensures Unmoved(s, Next(s, e), c)
  {
    assert e.msg.session.value in s.owner && e.msg.name == ATTACHED && e.msg.sub.Some? ==>
      (e.msg.sub.value, s.owner[e.msg.session.value].client) in Announced(s, e);
    Untouched(s, Next(s, e).proxy, c);
    hide Solo;
  }

  lemma BraveOther(s: Proxy, e: Event, c: nat)
    requires Inv(s) && Exact(s) && Enabled(s, e) && Fresh(s, e) && e.FromBrave? && !Concerns(s, e, c)
    ensures Unmoved(s, Next(s, e), c)
  {
    if s.pipe != Some(e.pipe) {
      Untouched(s, s, c);
    } else if e.msg.Reply? {
      ReplyOther(s, e, c);
    } else if e.msg.session.Some? {
      NoticeOther(s, e, c);
    } else if e.msg.sub.Some? && Owned(s, e.msg.sub.value) {
      CloseOther(s, c, s.owner[e.msg.sub.value].client, true);
      Untouched(s, s, c);
    } else {
      Untouched(s, s, c);
    }
    hide Solo, FromReply, CloseClient;
  }

  /** Another client's event moves this one's solo proxy by nothing but message ids. */
  lemma OtherEventSolo(s: Proxy, e: Event, c: nat)
    requires Inv(s) && Exact(s) && Enabled(s, e) && Fresh(s, e) && !Concerns(s, e, c)
    ensures Unmoved(s, Next(s, e), c)
  {
    match e
    case ClientSent(d, data) =>
      if Open(s, d) && s.clients[d].browserSession.Some? { FromClientOther(s, c, d, data); } else { Untouched(s,
          Next(s, e).proxy, c); }
    case AttachOver(d, sid) => AttachedOther(s, c, d, sid);
    case ClientGone(d) => CloseOther(s, c, d, false);
    case FromBrave(_, _) => BraveOther(s, e, c);
    case Accept(_) => Untouched(s, Next(s, e).proxy, c);
    case TakeId => Untouched(s, Next(s, e).proxy, c);
  }

  // ── runs ──

  lemma OwnExact(s: Proxy, sid: Sid, d: nat)
    requires Exact(s) && d in s.clients && s.pipe.Some? && (sid in s.owner ==> s.owner[sid].client == d)
    ensures Exact(Own(s, sid, d))
  {
  }

  lemma BraveExact(s: Proxy, e: Event)
    requires Inv(s) && Exact(s) && Enabled(s, e) && Fresh(s, e) && e.FromBrave? && s.pipe == Some(e.pipe)
    ensures Exact(Next(s, e).proxy)
  {
    if e.msg.Reply? {
      if e.msg.id in s.pending && e.msg.attached.Some? && Attaches(s.pending[e.msg.id].name) {
        assert (e.msg.attached.value, s.pending[e.msg.id].client) in Announced(s, e);
        OwnExact(s.(pending := s.pending - {e.msg.id}), e.msg.attached.value, s.pending[e.msg.id].client);
        hide Own;
      }
    } else if e.msg.session.None? {
      if e.msg.sub.Some? && Owned(s, e.msg.sub.value) { CloseExact(s, s.owner[e.msg.sub.value].client, true); }
      hide CloseClient;
    } else if Owned(s, e.msg.session.value) && e.msg.sub.Some? && e.msg.name == ATTACHED {
      assert (e.msg.sub.value, s.owner[e.msg.session.value].client) in Announced(s, e);
      OwnExact(s, e.msg.sub.value, s.owner[e.msg.session.value].client);
      hide Own;
    }
  }

  lemma ExactKept(s: Proxy, e: Event)
    requires Inv(s) && Exact(s) && Enabled(s, e) && Fresh(s, e)
    ensures Exact(Next(s, e).proxy)
  {
    match e
    case ClientSent(d, data) => if Open(s, d) && s.clients[d].browserSession.Some? { FromClientExact(s, d,
        data); hide FromClient; }
    case AttachOver(d, sid) => AttachedExact(s, d, sid); hide Attached;
    case ClientGone(d) => CloseExact(s, d, false); hide CloseClient;
    case FromBrave(p, _) => if s.pipe == Some(p) { BraveExact(s, e); hide FromReply, FromNotice; }
    case _ =>
  }

  /** The events happen one after the other, each possible when it comes. */
  ghost predicate Runs(s: Proxy, events: seq<Event>)
    decreases |events|
  {
    events == [] || (Enabled(s, events[0]) && Runs(Next(s, events[0]).proxy, events[1..]))
  }

  ghost predicate AllFresh(s: Proxy, events: seq<Event>)
    requires Runs(s, events)
    decreases |events|
  {
    events == [] || (Fresh(s, events[0]) && AllFresh(Next(s, events[0]).proxy, events[1..]))
  }

  /** Everything that concerns client c, in order. */
  ghost function Seen(s: Proxy, events: seq<Event>, c: nat): seq<Out>
    requires Runs(s, events)
    decreases |events|
  {
    if events == [] then [] else Sight(Next(s, events[0]).outs, c) + Seen(Next(s, events[0]).proxy, events[1..], c)
  }

  function TakeIds(n: nat): seq<Event> {
    if n == 0 then [] else [TakeId] + TakeIds(n - 1)
  }

  /** How many ids were taken on the way from s to s1. */
  function Since(s: Proxy, s1: Proxy): nat {
    if s1.nextId <= s.nextId then 0 else s1.nextId - s.nextId
  }

  /** The run a proxy serving c alone has: c's own events, and a call of the broker's for each id another took. */
  ghost function Projected(s: Proxy, events: seq<Event>, c: nat): seq<Event>
    requires Runs(s, events)
    decreases |events|
  {
    if events == [] then []
    else
      var s1 := Next(s, events[0]).proxy;
      (if Concerns(s, events[0], c) then [events[0]] else TakeIds(Since(s, s1)))
      + Projected(s1, events[1..], c)
  }

  lemma SeenCons(t: Proxy, e: Event, rest: seq<Event>, c: nat)
    requires Enabled(t, e) && Runs(Next(t, e).proxy, rest)
    ensures Runs(t, [e] + rest) && Seen(t, [e] + rest, c) == Sight(Next(t, e).outs, c) + Seen(Next(t, e).proxy, rest, c)
  {
    assert ([e] + rest)[1..] == rest;
  }

  lemma TakeIdIs(t: Proxy, c: nat)
    requires t.open
    ensures Next(t, TakeId).proxy == t.(nextId := t.nextId + 1) && Sight(Next(t, TakeId).outs, c) == []
  {
    assert Next(t, TakeId).outs == [RootCall(t.nextId, None)] && [RootCall(t.nextId, None)][1..] == [];
    hide Next;
  }

  lemma {:induction false} TakenIds(t: Proxy, n: nat, rest: seq<Event>, c: nat)
    requires n > 0 ==> t.open
    requires Runs(t.(nextId := t.nextId + n), rest)
    ensures Runs(t, TakeIds(n) + rest) && Seen(t, TakeIds(n) + rest, c) == Seen(t.(nextId := t.nextId + n), rest, c)
    decreases n
  {
    hide Next, Sight, Runs, Seen;
    if n == 0 {
      assert TakeIds(0) + rest == rest && t.(nextId := t.nextId + n) == t;
    } else {
      assert TakeIds(n) + rest == [TakeId] + (TakeIds(n - 1) + rest);
      TakeIdIs(t, c);
      var t1 := Next(t, TakeId).proxy;
      TakenIds(t1, n - 1, rest, c);
      SeenCons(t, TakeId, TakeIds(n - 1) + rest, c);
    }
  }

  lemma {:induction false} NothingSeen(outs: seq<Out>, c: nat)
    requires forall o :: o in outs ==> !About(o, c)
    ensures Sight(outs, c) == []
    decreases |outs|
  {
    if outs != [] {
      assert outs[0] in outs;
      NothingSeen(outs[1..], c);
    }
  }

  /** Client c's view of the rest of the run, solo. */
  ghost predicate SeesAlone(s: Proxy, events: seq<Event>, c: nat)
    requires Runs(s, events)
  {
    var alone := Projected(s, events, c);
    Runs(Solo(s, c), alone) && Seen(Solo(s, c), alone, c) == Seen(s, events, c)
  }

  lemma OwnFirst(s: Proxy, events: seq<Event>, c: nat)
    requires Inv(s) && Exact(s) && Runs(s, events) && AllFresh(s, events) && events != [] && Concerns(s, events[0], c)
    requires SeesAlone(Next(s, events[0]).proxy, events[1..], c)
    ensures SeesAlone(s, events, c)
  {
    OwnEventSolo(s, events[0], c);
    hide Inv, Exact, Fresh, Next, Enabled, About, Solo, Concerns;
    SeenCons(Solo(s, c), events[0], Projected(Next(s, events[0]).proxy, events[1..], c), c);
  }

  lemma OtherFirst(s: Proxy, events: seq<Event>, c: nat)
    requires Inv(s) && Exact(s) && Runs(s, events) && AllFresh(s, events) && events != [] && !Concerns(s, events[0], c)
    requires SeesAlone(Next(s, events[0]).proxy, events[1..], c)
    ensures SeesAlone(s, events, c)
  {
    var d := Next(s, events[0]);
    OtherEventSolo(s, events[0], c);
    NothingSeen(d.outs, c);
    SoloHas(s, c);
    var n, alone := Since(s, d.proxy), Solo(s, c);
    assert (n > 0 ==> alone.open) && Solo(d.proxy, c) == alone.(nextId := alone.nextId + n);
    hide Inv, Exact, Fresh, Next, Enabled, Solo, Concerns, About, Since, Unmoved;
    TakenIds(alone, n, Projected(d.proxy, events[1..], c), c);
  }

  /** What client c receives, has forwarded and is told of its end is what it would be on a proxy serving it alone,
      given only its own events, whatever the other clients and their sessions do. */
  lemma {:induction false} Isolation(s: Proxy, events: seq<Event>, c: nat)
    requires Inv(s) && Exact(s) && Runs(s, events) && AllFresh(s, events)
    ensures SeesAlone(s, events, c)
    decreases |events|
  {
    if events != [] {
      InvKept(s, events[0]);
      ExactKept(s, events[0]);
      Isolation(Next(s, events[0]).proxy, events[1..], c);
      hide Inv, Exact, Next, Enabled, SeesAlone, Concerns;
      if Concerns(s, events[0], c) { OwnFirst(s, events, c); } else { OtherFirst(s, events, c); }
    }
  }
}
