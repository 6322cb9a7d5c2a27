// What every event keeps: nothing of an earlier pipe routes a message of the
// current one.
module ProxyInvariant {
  import opened Cookies
  import opened CdpMessages
  import opened ProxySteps

  lemma CallKeeps(s: Proxy, detach: Option<Sid>)
    requires Inv(s)
    ensures Inv(Call(s, detach).proxy)
  {
  }

  lemma OwnKeeps(s: Proxy, sid: Sid, c: nat)
    requires Inv(s) && Open(s, c)
    ensures Inv(Own(s, sid, c))
  {
  }

  lemma CloseKeeps(s: Proxy, c: nat, detached: bool)
    requires Inv(s) && c in s.clients
    ensures Inv(CloseClient(s, c, detached).proxy)
  {
  }

  lemma FromClientInv(s: Proxy, c: nat, data: ClientData)
    requires Inv(s) && c in s.clients && s.pipe.Some? && (Open(s, c) ==> s.clients[c].browserSession.Some?)
    ensures Inv(FromClient(s, c, data).proxy)
  {
    if Open(s, c) && data.Request? {
    } else if Open(s, c) {
      CloseKeeps(s, c, false);
    }
  }

  lemma {:induction false} FlushInv(s: Proxy, c: nat, queue: seq<ClientData>)
    requires Inv(s) && c in s.clients && s.pipe.Some? && (Open(s, c) ==> s.clients[c].browserSession.Some?)
    ensures Inv(Flush(s, c, queue).proxy)
    decreases |queue|
  {
    if queue != [] {
      FromClientInv(s, c, queue[0]);
      FromClientKeeps(s, c, queue[0]);
      FlushInv(FromClient(s, c, queue[0]).proxy, c, queue[1..]);
    }
  }

  lemma SeatedInv(s: Proxy, c: nat, sid: Sid)
    requires Inv(s) && Open(s, c)
    ensures Inv(Seated(s, c, sid))
  {
  }

  lemma AttachedInv(s: Proxy, c: nat, sid: Option<Sid>)
    requires Inv(s) && Enabled(s, AttachOver(c, sid))
    ensures Inv(Attached(s, c, sid).proxy)
  {
    if sid.None? {
      CloseKeeps(s, c, false);
    } else if Open(s, c) && s.pipe == Some(s.clients[c].pipe) {
      SeatedInv(s, c, sid.value);
      FlushInv(Seated(s, c, sid.value), c, s.clients[c].queue);
      hide Inv, Flush;
    }
  }

  lemma FromReplyInv(s: Proxy, msg: BrowserMsg)
    requires Inv(s) && msg.Reply? && s.pipe.Some?
    ensures Inv(FromReply(s, msg).proxy)
  {
    if msg.id in s.pending {
      var s1 := s.(pending := s.pending - {msg.id});
      assert Inv(s1);
      if msg.attached.Some? && Attaches(s.pending[msg.id].name) { OwnKeeps(s1, msg.attached.value, s.pending[msg.id].client); }
    }
  }

  lemma FromNoticeInv(s: Proxy, msg: BrowserMsg)
    requires Inv(s) && msg.Notice? && s.pipe.Some?
    ensures Inv(FromNotice(s, msg).proxy)
  {
    if msg.session.None? {
      if msg.sub.Some? && msg.sub.value in s.owner { CloseKeeps(s, s.owner[msg.sub.value].client, true); }
    } else if msg.session.value in s.owner && msg.sub.Some? {
      OwnKeeps(s, msg.sub.value, s.owner[msg.session.value].client);
    }
  }

  lemma InvKept(s: Proxy, e: Event)
    requires Inv(s) && Enabled(s, e)
    ensures Inv(Next(s, e).proxy)
  {
    match e
    case ClientSent(c, data) => if Open(s, c) && s.clients[c].browserSession.Some? { FromClientInv(s, c, data); }
    case AttachOver(c, sid) => AttachedInv(s, c, sid);
    case ClientGone(c) => CloseKeeps(s, c, false);
    case FromBrave(p, msg) => if s.pipe == Some(p) { if msg.Reply? { FromReplyInv(s, msg); } else { FromNoticeInv(s, msg); } }
    case _ =>
  }
}
