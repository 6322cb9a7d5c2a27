// CdpProxy as the source runs it: its maps updated in place by event methods, each
// of which does what the event of the same kind in ProxySteps says.
module CdpProxyClass {
  import opened Cookies
  import opened CdpMessages
  import opened ProxySteps

  lemma {:induction false} FlushParts(s: Proxy, c: nat, a: seq<ClientData>, b: seq<ClientData>)
    requires c in s.clients && s.pipe.Some? && (Open(s, c) ==> s.clients[c].browserSession.Some?)
    ensures var d := Flush(s, c, a);
            && c in d.proxy.clients && d.proxy.pipe.Some? && (Open(d.proxy, c) ==> d.proxy.clients[c].browserSession.Some?)
            && Flush(s, c, a + b) == Done(Flush(d.proxy, c, b).proxy, d.outs + Flush(d.proxy, c, b).outs)
    decreases |a|
  {
    if a == [] {
      assert a + b == b;
    } else {
      assert (a + b)[1..] == a[1..] + b;
      FromClientKeeps(s, c, a[0]);
      FlushParts(FromClient(s, c, a[0]).proxy, c, a[1..], b);
      hide FromClient;
    }
  }

  lemma FlushOne(s: Proxy, c: nat, data: ClientData)
    requires c in s.clients && s.pipe.Some? && (Open(s, c) ==> s.clients[c].browserSession.Some?)
    ensures Flush(s, c, [data]) == FromClient(s, c, data)
  {
    FromClientKeeps(s, c, data);
    var d := FromClient(s, c, data);
    assert [data][1..] == [];
    assert Flush(d.proxy, c, []) == Done(d.proxy, []);
    assert d.outs + [] == d.outs;
    hide FromClient;
  }

  class CdpProxy {
    var pipe: Option<nat>
    var open: bool
    var nextId: nat
    var pending: map<nat, Entry>
    var owner: map<Sid, Owner>
    var clients: map<nat, Client>
    // what was written to websockets and to the pipe
    var sent: seq<Out>

    ghost function State(): Proxy
      reads this
    {
      Proxy(pipe, open, nextId, pending, owner, clients)
    }

    /** The object went from `was` through the step `d`. */
    ghost predicate Went(d: Done, before: seq<Out>)
      reads this
    {
      State() == d.proxy && sent == before + d.outs
    }

    constructor ()
      ensures State() == Proxy(None, false, 1, map[], map[], map[]) && sent == []
    {
      pipe, open, nextId, pending, owner, clients, sent := None, false, 1, map[], map[], map[], [];
    }

    /** A call on the pipe's root session. */
    method RootCall(detach: Option<Sid>)
      modifies `nextId, `sent
      ensures Went(Call(old(State()), detach), old(sent))
    {
      sent := sent + [Out.RootCall(nextId, detach)];
      nextId := nextId + 1;
    }

    method Tell(c: nat, msg: ToClient)
      modifies `sent
      ensures sent == old(sent) + ToClientOuts(State(), c, msg)
    {
      if c in clients && !clients[c].closed { sent := sent + [Deliver(c, msg)]; }
    }

    method OwnSession(sid: Sid, c: nat)
      requires c in clients && pipe.Some?
      modifies `owner, `clients
      ensures State() == Own(old(State()), sid, c)
    {
      owner := owner[sid := Owner(c, pipe.value)];
      clients := clients[c := clients[c].(sessions := clients[c].sessions + {sid})];
    }

    method DisownSession(sid: Sid)
      modifies `owner, `clients
      ensures State() == Disown(old(State()), sid)
    {
      if sid in owner && owner[sid].client in clients {
        var c := owner[sid].client;
        clients := clients[c := clients[c].(sessions := clients[c].sessions - {sid})];
      }
      owner := owner - {sid};
    }

    /** Its sessions and its pending commands go. */
    method Forget(c: nat)
      requires Open(State(), c)
      modifies `owner, `pending, `clients
      ensures State() == Without(old(State()), c)
    {
      ForgetPending(c);
      owner := owner - clients[c].sessions;
      clients := clients[c := clients[c].(closed := true, sessions := {})];
    }

    method ForgetPending(c: nat)
      modifies `pending
      ensures pending == old(pending) - IdsOf(old(State()), c)
    {
      ghost var was := pending;
      var todo := pending.Keys;
      while todo != {}
        invariant todo <= was.Keys
        invariant forall id :: id in pending <==> id in was && (id in todo || was[id].client != c)
        invariant forall id :: id in pending ==> pending[id] == was[id]
        modifies `pending
        decreases |todo|
      {
        var id :| id in todo;
        if pending[id].client == c { pending := pending - {id}; }
        todo := todo - {id};
      }
      assert pending == was - IdsOf(old(State()), c);
    }

    method OnClientClose(c: nat, detached: bool)
      requires c in clients
      modifies `owner, `pending, `clients, `nextId, `sent
      ensures Went(CloseClient(old(State()), c, detached), old(sent))
    {
      hide Without;
      if clients[c].closed { return; }
      var browser := clients[c].browserSession;
      Forget(c);
      if browser.Some? && !detached && pipe.Some? && open { RootCall(browser); }
    }

    method Drop(c: nat, detached: bool)
      requires c in clients
      modifies `owner, `pending, `clients, `nextId, `sent
      ensures Went(DropClient(old(State()), c, detached), old(sent))
    {
      hide CloseClient;
      OnClientClose(c, detached);
      sent := sent + [Shut(c)];
    }

    /** A message of a client that has its browser session. */
    method FromClientData(c: nat, data: ClientData)
      requires c in clients && pipe.Some? && (Open(State(), c) ==> clients[c].browserSession.Some?)
      modifies `owner, `pending, `clients, `nextId, `sent
      ensures Went(FromClient(old(State()), c, data), old(sent))
    {
      hide DropClient, BlockedInside;
      if clients[c].closed { return; }
      if !data.Request? {
        Drop(c, false);
        return;
      }
      var msg := data.msg;
      var refused := BlockedInside(msg.cmd, 0);
      if refused.Some? {
        Tell(c, Answer(msg.id, Refused(refused.value), msg.session));
        return;
      }
      var target := clients[c].browserSession.value;
      GuardPassed(msg.cmd);
      if msg.cmd.name == SEND_TO_TARGET && OwnerOf(Proxy(pipe, open, nextId, pending, owner, clients),
          msg.cmd.params.session.value) != Some(c) {
        Tell(c, Answer(msg.id, NoSession, msg.session));
        return;
      }
      if msg.session.Some? {
        if msg.session.value !in owner || owner[msg.session.value].client != c {
          Tell(c, Answer(msg.id, NoSession, msg.session));
          return;
        }
        target := msg.session.value;
      }
      pending := pending[nextId := Entry(c, msg.id, msg.cmd.name, msg.session, pipe.value)];
      sent := sent + [Forward(nextId, c, target, msg)];
      nextId := nextId + 1;
    }

    method OnClient(c: nat)
      requires c !in clients && pipe.Some? && open
      modifies `clients, `nextId, `sent
      ensures Went(Next(old(State()), Accept(c)), old(sent))
    {
      clients := clients[c := Client(None, [], {}, false, pipe.value)];
      RootCall(None);
    }

    /** A websocket message; before the browser session it waits. */
    method OnClientMessage(c: nat, data: ClientData)
      requires Enabled(State(), ClientSent(c, data))
      modifies `owner, `pending, `clients, `nextId, `sent
      ensures Went(Next(old(State()), ClientSent(c, data)), old(sent))
    {
      hide FromClient;
      if clients[c].closed { return; }
      if clients[c].browserSession.None? {
        clients := clients[c := clients[c].(queue := clients[c].queue + [data])];
      } else {
        FromClientData(c, data);
      }
    }

    /** The attach call is over: the client gets its browser session and its queue is sent, or it is dropped. */
    method OnAttachOver(c: nat, sid: Option<Sid>)
      requires Enabled(State(), AttachOver(c, sid))
      modifies `owner, `pending, `clients, `nextId, `sent
      ensures Went(Next(old(State()), AttachOver(c, sid)), old(sent))
    {
      hide Flush, FromClient, DropClient;
      if sid.None? {
        Drop(c, false);
        return;
      }
      clients := clients[c := clients[c].(browserSession := sid)];
      if clients[c].closed || pipe != Some(clients[c].pipe) {
        if pipe == Some(clients[c].pipe) && open { RootCall(sid); }
        return;
      }
      owner := owner[sid.value := Owner(c, pipe.value)];
      var queue := clients[c].queue;
      clients := clients[c := clients[c].(sessions := clients[c].sessions + {sid.value}, queue := [])];
      assert State() == Seated(old(State()), c, sid.value);
      SendQueue(c, queue);
    }

    method SendQueue(c: nat, queue: seq<ClientData>)
      requires c in clients && pipe.Some? && (Open(State(), c) ==> clients[c].browserSession.Some?)
      modifies `owner, `pending, `clients, `nextId, `sent
      ensures Went(Flush(old(State()), c, queue), old(sent))
    {
      ghost var s0 := State();
      assert Flush(s0, c, []) == Done(s0, []);
      for i := 0 to |queue|
        invariant c in clients && pipe.Some? && (Open(State(), c) ==> clients[c].browserSession.Some?)
        invariant Went(Flush(s0, c, queue[..i]), old(sent))
        modifies `owner, `pending, `clients, `nextId, `sent
      {
        FlushParts(s0, c, queue[..i], [queue[i]]);
        FlushOne(State(), c, queue[i]);
        FromClientKeeps(State(), c, queue[i]);
        assert queue[..i + 1] == queue[..i] + [queue[i]];
        hide Flush, FromClient;
        FromClientData(c, queue[i]);
      }
      assert queue[..|queue|] == queue;
    }

    /** A message of the pipe served now. */
    method FromBrowser(msg: BrowserMsg)
      requires pipe.Some?
      modifies `owner, `pending, `clients, `nextId, `sent
      ensures Went(Next(old(State()), FromBrave(pipe.value, msg)), old(sent))
    {
      if msg.Reply? { OnReply(msg); } else { OnNotice(msg); }
    }

    method OnReply(msg: BrowserMsg)
      requires msg.Reply? && pipe.Some?
      modifies `owner, `pending, `clients, `sent
      ensures Went(FromReply(old(State()), msg), old(sent))
    {
      if msg.id !in pending { return; }
      var p := pending[msg.id];
      pending := pending - {msg.id};
      if msg.attached.Some? && p.client in clients && !clients[p.client].closed && Attaches(p.name) {
        OwnSession(msg.attached.value, p.client);
      }
      Tell(p.client, Answer(p.origId, OutcomeOf(msg), p.routed));
    }

    method OnNotice(msg: BrowserMsg)
      requires msg.Notice? && pipe.Some?
      modifies `owner, `pending, `clients, `nextId, `sent
      ensures Went(FromNotice(old(State()), msg), old(sent))
    {
      hide DropClient, Disown;
      if msg.session.None? {
        if msg.name == DETACHED && msg.sub.Some? && msg.sub.value in owner && owner[msg.sub.value].client in clients {
          var c := owner[msg.sub.value].client;
          if clients[c].browserSession == msg.sub { Drop(c, true); }
        }
        return;
      }
      if msg.session.value !in owner || owner[msg.session.value].client !in clients { return; }
      var c := owner[msg.session.value].client;
      if msg.name == ATTACHED && msg.sub.Some? { OwnSession(msg.sub.value, c); }
      var shown := if msg.session == clients[c].browserSession then None else msg.session;
      Tell(c, Event(msg.name, msg.sub, msg.content, shown));
      if msg.name == DETACHED && msg.sub.Some? { DisownSession(msg.sub.value); }
    }

    /** Every session died with this Brave. */
    method OnPipeClose()
      modifies `owner, `pending, `clients, `sent
      ensures Went(PipeClosed(old(State())), old(sent))
    {
      hide OpenClients;
      pending := map[];
      var gone := ForgetAll();
      owner := map[];
      if gone != {} { sent := sent + [ShutAll(gone)]; }
    }

    /** Forget every client; returns those whose websocket is still open. */
    method ForgetAll() returns (gone: set<nat>)
      modifies `clients
      ensures clients.Keys == old(clients).Keys && gone == OpenClients(old(clients))
      ensures forall c :: c in clients ==> clients[c] == old(clients)[c].(closed := true)
    {
      ghost var was := clients;
      gone := {};
      var todo := clients.Keys;
      while todo != {}
        invariant todo <= was.Keys && clients.Keys == was.Keys
        invariant forall c :: c in was ==> clients[c] == if c in todo then was[c] else was[c].(closed := true)
        invariant forall c :: c in gone <==> c in was && c !in todo && !was[c].closed
        modifies `clients
        decreases |todo|
      {
        var c :| c in todo;
        if !clients[c].closed { gone := gone + {c}; }
        clients := clients[c := clients[c].(closed := true)];
        todo := todo - {c};
      }
    }

    /** A pipe ended; only the one served now matters. */
    method OnPipeEnded(p: nat)
      modifies `open, `owner, `pending, `clients, `sent
      ensures Went(Next(old(State()), PipeEnded(p)), old(sent))
    {
      hide PipeClosed;
      if pipe == Some(p) {
        open := false;
        OnPipeClose();
      }
    }

    /** Serve the Brave behind a new pipe: nothing of an earlier one is routed to it. */
    method SetPipe(p: nat, dead: bool, n: nat)
      requires Enabled(State(), Event.SetPipe(p, dead, n))
      modifies `pipe, `open, `nextId, `owner, `pending, `clients, `sent
      ensures Went(Next(old(State()), Event.SetPipe(p, dead, n)), old(sent))
    {
      hide PipeClosed;
      if open { OnPipeClose(); }
      pipe, open, nextId := Some(p), !dead, n;
      if dead { OnPipeClose(); }
    }
  }

  lemma GuardPassed(cmd: Cmd)
    ensures BlockedInside(cmd, 0).None? && cmd.name == SEND_TO_TARGET ==> cmd.params.Envelope? && cmd.params.session.Some?
  {
  }
}
