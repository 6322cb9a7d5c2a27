// Routing over whole runs: who gets which reply, and whose sessions commands go to.
module ProxyRouting {
  import opened Cookies
  import opened CdpMessages
  import opened ProxySteps
  import opened ProxyInvariant

  /** Who used a message id of the current pipe. */
  datatype Use = ByRoot | By(client: nat, session: Sid, msg: Msg)

  /** What happened on the current pipe: the ids used, the forwarded commands answered, and the
      sessions Brave announced to each client. */
  datatype Past = Past(used: map<nat, Use>, answered: set<nat>, announced: set<(Sid, nat)>)

  datatype Sys = Sys(proxy: Proxy, past: Past)

  function Noted(used: map<nat, Use>, outs: seq<Out>): map<nat, Use>
    decreases |outs|
  {
    if outs == [] then used
    else
      match outs[0]
      case Forward(id, c, session, msg) => Noted(used[id := By(c, session, msg)], outs[1..])
      case RootCall(id, _) => Noted(used[id := ByRoot], outs[1..])
      case _ => Noted(used, outs[1..])
  }

  /** The session an event announces, and to whom. */
  function Announced(s: Proxy, e: Event): set<(Sid, nat)> {
    match e
    case AttachOver(c, Some(sid)) => {(sid, c)}
    case FromBrave(p, Reply(id, _, _, Some(sid))) =>
      if s.pipe == Some(p) && id in s.pending && Attaches(s.pending[id].name) then {(sid, s.pending[id].client)} else {}
    case FromBrave(p, Notice(Some(on), name, Some(sid), _)) =>
      if s.pipe == Some(p) && name == ATTACHED && on in s.owner then {(sid, s.owner[on].client)} else {}
    case _ => {}
  }

  function Answers(s: Proxy, e: Event): set<nat> {
    match e
    case FromBrave(p, Reply(id, _, _, _)) => if s.pipe == Some(p) && id in s.pending then {id} else {}
    case _ => {}
  }

  ghost function Step(s: Sys, e: Event): Sys
    requires Enabled(s.proxy, e)
  {
    var d := Next(s.proxy, e);
    Sys(d.proxy,
        if e.SetPipe? then Past(map[], {}, {})
        else Past(Noted(s.past.used, d.outs), s.past.answered + Answers(s.proxy, e), s.past.announced + Announced(s.proxy, e)))
  }

  // ── the invariant ──

  /** Every pending entry is a forwarded command of its client that was not answered. */
  ghost predicate Traced(s: Proxy, used: map<nat, Use>, answered: set<nat>) {
    && (forall id :: id in used ==> id < s.nextId)
    && answered <= used.Keys
    && (forall id :: id in s.pending ==>
          && id in used && used[id].By? && id !in answered
          && used[id].client == s.pending[id].client && used[id].msg.id == s.pending[id].origId &&
              used[id].msg.session == s.pending[id].routed)
  }

  ghost predicate Granted(s: Proxy, announced: set<(Sid, nat)>) {
    && (forall sid :: sid in s.owner ==> (sid, s.owner[sid].client) in announced)
    && (forall c :: Open(s, c) && s.clients[c].browserSession.Some? ==> (s.clients[c].browserSession.value, c) in announced)
  }

  ghost predicate SysInv(s: Sys) {
    Inv(s.proxy) && Traced(s.proxy, s.past.used, s.past.answered) && Granted(s.proxy, s.past.announced)
  }

  /** Commands forwarded by these messages go to sessions announced to their sender. */
  ghost predicate Allowed(outs: seq<Out>, announced: set<(Sid, nat)>) {
    forall o :: o in outs && o.Forward? ==> (o.session, o.sender) in announced
  }

  lemma {:induction false} NotedParts(used: map<nat, Use>, a: seq<Out>, b: seq<Out>)
    ensures Noted(used, a + b) == Noted(Noted(used, a), b)
    decreases |a|
  {
    if a == [] {
      assert a + b == b;
    } else {
      assert (a + b)[1..] == a[1..] + b;
      var u := Noted(used, a[..1]);
      assert a[..1][1..] == [];
      NotedParts(match a[0] case Forward(id, c, session, msg) => used[id := By(c, session, msg)]
                            case RootCall(id, _) => used[id := ByRoot]
                            case _ => used, a[1..], b);
    }
  }

  lemma NotedOne(used: map<nat, Use>, o: Out)
    ensures Noted(used, [o]) == match o case Forward(id, c, session, msg) => used[id := By(c, session, msg)]
                                        case RootCall(id, _) => used[id := ByRoot]
                                        case _ => used
  {
    assert [o][1..] == [];
  }

  lemma CloseTraced(s: Proxy, c: nat, detached: bool, used: map<nat, Use>, answered: set<nat>)
    requires Inv(s) && c in s.clients && Traced(s, used, answered)
    ensures var d := CloseClient(s, c, detached); Traced(d.proxy, Noted(used, d.outs), answered)
    ensures var d := DropClient(s, c, detached); Traced(d.proxy, Noted(used, d.outs), answered)
  {
    var d := CloseClient(s, c, detached);
    NotedParts(used, d.outs, [Shut(c)]);
    NotedOne(Noted(used, d.outs), Shut(c));
    if d.outs != [] { NotedOne(used, d.outs[0]); }
  }

  lemma CloseGranted(s: Proxy, c: nat, detached: bool, announced: set<(Sid, nat)>)
    requires c in s.clients && Granted(s, announced)
    ensures Granted(CloseClient(s, c, detached).proxy, announced) && Allowed(CloseClient(s, c, detached).outs, announced)
  {
  }

  lemma FromClientTraced(s: Proxy, c: nat, data: ClientData, used: map<nat, Use>, answered: set<nat>)
    requires Inv(s) && c in s.clients && s.pipe.Some? && (Open(s, c) ==> s.clients[c].browserSession.Some?) &&
        Traced(s, used, answered)
    ensures var d := FromClient(s, c, data); Traced(d.proxy, Noted(used, d.outs), answered)
  {
    var d := FromClient(s, c, data);
    if !Open(s, c) {
    } else if data.Request? {
      if d.outs != [] { NotedOne(used, d.outs[0]); }
    } else {
      CloseTraced(s, c, false, used, answered);
    }
  }

  lemma FromClientGranted(s: Proxy, c: nat, data: ClientData, announced: set<(Sid, nat)>)
    requires c in s.clients && s.pipe.Some? && (Open(s, c) ==> s.clients[c].browserSession.Some?) && Granted(s, announced)
    ensures Granted(FromClient(s, c, data).proxy, announced) && Allowed(FromClient(s, c, data).outs, announced)
  {
    if Open(s, c) && !data.Request? {
      CloseGranted(s, c, false, announced);
    }
  }

  lemma {:induction false} FlushTraced(s: Proxy, c: nat, queue: seq<ClientData>, p: Past)
    requires Inv(s) && c in s.clients && s.pipe.Some? && (Open(s, c) ==> s.clients[c].browserSession.Some?)
    requires Traced(s, p.used, p.answered) && Granted(s, p.announced)
    ensures var d := Flush(s, c, queue); Traced(d.proxy, Noted(p.used, d.outs), p.answered) && Granted(d.proxy, p.announced) && Allowed(d.outs, p.announced)
    decreases |queue|
  {
    if queue != [] {
      var d := FromClient(s, c, queue[0]);
      FromClientTraced(s, c, queue[0], p.used, p.answered);
      FromClientGranted(s, c, queue[0], p.announced);
      FromClientInv(s, c, queue[0]);
      FromClientKeeps(s, c, queue[0]);
      FlushTraced(d.proxy, c, queue[1..], p.(used := Noted(p.used, d.outs)));
      NotedParts(p.used, d.outs, Flush(d.proxy, c, queue[1..]).outs);
      hide Inv, Traced, Granted, FromClient, Noted;
    }
  }

  lemma SeatedTraced(s: Proxy, c: nat, sid: Sid, p: Past)
    requires Inv(s) && Open(s, c) && s.pipe.Some? && s.clients[c].browserSession.None? &&
        Traced(s, p.used, p.answered) && Granted(s, p.announced)
    ensures Traced(Seated(s, c, sid), p.used, p.answered) && Granted(Seated(s, c, sid), p.announced + {(sid, c)})
  {
  }

  lemma AttachedTraced(s: Proxy, c: nat, sid: Option<Sid>, p: Past)
    requires Inv(s) && Enabled(s, AttachOver(c, sid)) && Traced(s, p.used, p.answered) && Granted(s, p.announced)
    ensures
      var d, announced := Attached(s, c, sid), p.announced + Announced(s, AttachOver(c, sid));
      Traced(d.proxy, Noted(p.used, d.outs), p.answered) && Granted(d.proxy, announced) && Allowed(d.outs, announced)
  {
    var announced := p.announced + Announced(s, AttachOver(c, sid));
    if sid.None? {
      CloseTraced(s, c, false, p.used, p.answered);
      CloseGranted(s, c, false, announced);
      hide CloseClient, Traced, Noted;
    } else if Open(s, c) {
      SeatedInv(s, c, sid.value);
      SeatedTraced(s, c, sid.value, p);
      hide Traced, Granted, Seated, Flush, Noted;
      FlushTraced(Seated(s, c, sid.value), c, s.clients[c].queue, p.(announced := announced));
    } else {
      var d := Attached(s, c, sid);
      if d.outs != [] { NotedOne(p.used, d.outs[0]); }
      hide Flush, Seated, CloseClient;
    }
  }

  lemma ReplyTraced(s: Proxy, e: Event, p: Past)
    requires Inv(s) && e.FromBrave? && s.pipe == Some(e.pipe) && e.msg.Reply? && Traced(s, p.used, p.answered) &&
        Granted(s, p.announced)
    ensures
      var d, announced := FromReply(s, e.msg), p.announced + Announced(s, e);
      Traced(d.proxy, Noted(p.used, d.outs), p.answered + Answers(s, e)) && Granted(d.proxy, announced) &&
          Allowed(d.outs, announced)
  {
    var d := FromReply(s, e.msg);
    if d.outs != [] { NotedOne(p.used, d.outs[0]); }
    assert d.outs == [] || (d.outs == [d.outs[0]] && d.outs[0].Deliver?);
    assert Noted(p.used, d.outs) == p.used;
    hide Noted;
  }

  lemma NoticeTraced(s: Proxy, e: Event, p: Past)
    requires Inv(s) && e.FromBrave? && s.pipe == Some(e.pipe) && e.msg.Notice? && Traced(s, p.used, p.answered) &&
        Granted(s, p.announced)
    ensures
      var d, announced := FromNotice(s, e.msg), p.announced + Announced(s, e);
      Traced(d.proxy, Noted(p.used, d.outs), p.answered) && Granted(d.proxy, announced) && Allowed(d.outs, announced)
  {
    var d, announced := FromNotice(s, e.msg), p.announced + Announced(s, e);
    if e.msg.session.None? {
      if e.msg.sub.Some? && Owned(s, e.msg.sub.value) {
        CloseTraced(s, s.owner[e.msg.sub.value].client, true, p.used, p.answered);
        CloseGranted(s, s.owner[e.msg.sub.value].client, true, announced);
      }
    } else {
      if d.outs != [] { NotedOne(p.used, d.outs[0]); }
      assert d.outs == [] || (d.outs == [d.outs[0]] && d.outs[0].Deliver?);
      assert Noted(p.used, d.outs) == p.used;
      hide Noted;
    }
  }

  /** The current pipe ended: nothing is pending or owned any more. */
  lemma EndTraced(s: Sys, e: Event)
    requires SysInv(s) && e.PipeEnded?
    ensures SysInv(Step(s, e)) && Allowed(Next(s.proxy, e).outs, Step(s, e).past.announced)
  {
    InvKept(s.proxy, e);
    NotedOne(s.past.used, ShutAll(OpenClients(s.proxy.clients)));
    hide Inv, OpenClients;
  }

  /** A new pipe's ids are its own, and nobody has a session on it. */
  lemma PipeTraced(s: Sys, e: Event)
    requires SysInv(s) && e.SetPipe? && Enabled(s.proxy, e)
    ensures SysInv(Step(s, e)) && Allowed(Next(s.proxy, e).outs, Step(s, e).past.announced)
  {
    InvKept(s.proxy, e);
    hide OpenClients, Noted;
  }

  lemma GoneTraced(s: Sys, e: Event)
    requires SysInv(s) && Enabled(s.proxy, e) && e.ClientGone?
    ensures SysInv(Step(s, e)) && Allowed(Next(s.proxy, e).outs, Step(s, e).past.announced)
  {
    InvKept(s.proxy, e);
    CloseTraced(s.proxy, e.client, false, s.past.used, s.past.answered);
    CloseGranted(s.proxy, e.client, false, s.past.announced);
    hide Inv, CloseClient, Traced, Granted, Allowed;
  }

  lemma SentTraced(s: Sys, e: Event)
    requires SysInv(s) && Enabled(s.proxy, e) && e.ClientSent?
    ensures SysInv(Step(s, e)) && Allowed(Next(s.proxy, e).outs, Step(s, e).past.announced)
  {
    InvKept(s.proxy, e);
    hide Inv, FromClient;
    if Open(s.proxy, e.client) && s.proxy.clients[e.client].browserSession.Some? {
      FromClientTraced(s.proxy, e.client, e.data, s.past.used, s.past.answered);
      FromClientGranted(s.proxy, e.client, e.data, s.past.announced);
    }
  }

  lemma BraveTraced(s: Sys, e: Event)
    requires SysInv(s) && Enabled(s.proxy, e) && (e.AttachOver? || e.FromBrave?)
    ensures SysInv(Step(s, e)) && Allowed(Next(s.proxy, e).outs, Step(s, e).past.announced)
  {
    InvKept(s.proxy, e);
    hide Attached, FromReply, FromNotice;
    if e.AttachOver? {
      AttachedTraced(s.proxy, e.client, e.sid, s.past);
    } else if s.proxy.pipe == Some(e.pipe) {
      if e.msg.Reply? { ReplyTraced(s.proxy, e, s.past); } else { NoticeTraced(s.proxy, e, s.past); }
    }
    hide Inv, Traced, Granted, Allowed;
  }

  lemma RootTraced(s: Sys, e: Event)
    requires SysInv(s) && Enabled(s.proxy, e) && (e.Accept? || e.TakeId?)
    ensures SysInv(Step(s, e)) && Allowed(Next(s.proxy, e).outs, Step(s, e).past.announced)
  {
    InvKept(s.proxy, e);
    NotedOne(s.past.used, Next(s.proxy, e).outs[0]);
    hide Inv;
  }

  lemma StepKept(s: Sys, e: Event)
    requires SysInv(s) && Enabled(s.proxy, e)
    ensures SysInv(Step(s, e)) && Allowed(Next(s.proxy, e).outs, Step(s, e).past.announced)
  {
    hide *;
    match e
    case ClientSent(_, _) => SentTraced(s, e);
    case ClientGone(_) => GoneTraced(s, e);
    case AttachOver(_, _) => BraveTraced(s, e);
    case FromBrave(_, _) => BraveTraced(s, e);
    case SetPipe(_, _, _) => PipeTraced(s, e);
    case PipeEnded(_) => EndTraced(s, e);
    case _ => RootTraced(s, e);
  }

  // ── runs ──

  ghost predicate Init(s: Sys) {
    s == Sys(Proxy(None, false, 1, map[], map[], map[]), Past(map[], {}, {}))
  }

  ghost predicate Reaches(s0: Sys, events: seq<Event>, s: Sys)
    decreases |events|
  {
    if events == [] then s == s0 else Enabled(s0.proxy, events[0]) && Reaches(Step(s0, events[0]), events[1..], s)
  }

  lemma {:induction false} RunHolds(s0: Sys, events: seq<Event>, s: Sys)
    requires SysInv(s0) && Reaches(s0, events, s)
    ensures SysInv(s)
    decreases |events|
  {
    if events != [] {
      StepKept(s0, events[0]);
      RunHolds(Step(s0, events[0]), events[1..], s);
    }
  }

  /** After any events, everything the proxy routes by was created on the current pipe. */
  lemma NothingOfAnEarlierPipe(s0: Sys, events: seq<Event>, s: Sys)
    requires Init(s0) && Reaches(s0, events, s)
    ensures forall id :: id in s.proxy.pending ==> s.proxy.pipe == Some(s.proxy.pending[id].born)
    ensures forall sid :: sid in s.proxy.owner ==> s.proxy.pipe == Some(s.proxy.owner[sid].born)
    ensures forall c :: Open(s.proxy, c) ==> s.proxy.pipe == Some(s.proxy.clients[c].pipe) && s.proxy.open
    ensures !s.proxy.open ==> s.proxy.pending == map[] && s.proxy.owner == map[]
  {
    RunHolds(s0, events, s);
  }

  predicate FromBrowser(o: Outcome) {
    o.Failed? || o.Result?
  }

  /** An answer that came from Brave goes to the client whose command took that id on this pipe, with the
      client's own id and the session it named; the id was not answered before and never is again. */
  lemma AnswersTheSender(s0: Sys, events: seq<Event>, s: Sys, e: Event, o: Out)
    requires Init(s0) && Reaches(s0, events, s) && Enabled(s.proxy, e)
    requires o in Next(s.proxy, e).outs && o.Deliver? && o.msg.Answer? && FromBrowser(o.msg.outcome)
    ensures e.FromBrave? && s.proxy.pipe == Some(e.pipe) && e.msg.Reply?
    ensures e.msg.error.Some? ==> o.msg.outcome == Failed(e.msg.error.value)
    ensures e.msg.error.None? ==> o.msg.outcome == Result(e.msg.content, e.msg.attached)
    ensures e.msg.id in s.past.used && s.past.used[e.msg.id].By?
    ensures var use := s.past.used[e.msg.id]; o.client == use.client && o.msg.id == use.msg.id && o.msg.session == use.msg.session
    ensures e.msg.id !in s.past.answered && e.msg.id in Step(s, e).past.answered
    ensures Next(s.proxy, e).outs == [o]
  {
    RunHolds(s0, events, s);
    OnlyReplies(s.proxy, e, o);
  }

  lemma {:induction false} FlushSendsNoReply(s: Proxy, c: nat, queue: seq<ClientData>, o: Out)
    requires c in s.clients && s.pipe.Some? && (Open(s, c) ==> s.clients[c].browserSession.Some?)
    requires o in Flush(s, c, queue).outs
    ensures !(o.Deliver? && o.msg.Answer? && FromBrowser(o.msg.outcome))
    decreases |queue|
  {
    if queue != [] {
      FromClientKeeps(s, c, queue[0]);
      var d := FromClient(s, c, queue[0]);
      if o !in d.outs { FlushSendsNoReply(d.proxy, c, queue[1..], o); }
    }
  }

  lemma OnlyReplies(s: Proxy, e: Event, o: Out)
    requires Inv(s) && Enabled(s, e)
    requires o in Next(s, e).outs && o.Deliver? && o.msg.Answer? && FromBrowser(o.msg.outcome)
    ensures e.FromBrave? && s.pipe == Some(e.pipe) && e.msg.Reply? && e.msg.id in s.pending && Next(s, e).outs == [o]
    ensures o == Deliver(s.pending[e.msg.id].client, Answer(s.pending[e.msg.id].origId, OutcomeOf(e.msg),
        s.pending[e.msg.id].routed))
  {
    if e.AttachOver? && e.sid.Some? && Open(s, e.client) {
      FlushSendsNoReply(Seated(s, e.client, e.sid.value), e.client, s.clients[e.client].queue, o);
      assert false;
    }
  }

  /** Once answered, an id stays answered as long as its pipe is served. */
  lemma {:induction false} AnsweredStays(s0: Sys, events: seq<Event>, s: Sys, id: nat)
    requires SysInv(s0) && Reaches(s0, events, s) && id in s0.past.answered
    requires forall e :: e in events ==> !e.SetPipe?
    ensures id in s.past.answered
    decreases |events|
  {
    if events != [] {
      StepKept(s0, events[0]);
      AnsweredStays(Step(s0, events[0]), events[1..], s, id);
    }
  }

  /** A reply to a call of the root session, a reply to an id nobody used and a second reply reach no client. */
  lemma OtherRepliesGoNowhere(s0: Sys, events: seq<Event>, s: Sys, p: nat, msg: BrowserMsg)
    requires Init(s0) && Reaches(s0, events, s) && msg.Reply?
    requires (msg.id in s.past.used ==> s.past.used[msg.id].ByRoot?) || msg.id in s.past.answered || s.proxy.pipe != Some(p)
    ensures SysInv(s) && Next(s.proxy, FromBrave(p, msg)) == Done(s.proxy, [])
  {
    RunHolds(s0, events, s);
  }

  /** Every command that reaches Brave goes to a session Brave announced to its sender on this pipe,
      is exactly what the client sent, and hides no blocked method. */
  lemma ForwardsOnlyOwn(s0: Sys, events: seq<Event>, s: Sys, e: Event, o: Out)
    requires Init(s0) && Reaches(s0, events, s) && Enabled(s.proxy, e)
    requires o in Next(s.proxy, e).outs && o.Forward?
    ensures (o.session, o.sender) in Step(s, e).past.announced
    ensures forall m :: m in Runs(o.request.cmd) ==> !Blocked(m)
    ensures o.request.session.Some? ==> o.session == o.request.session.value
  {
    RunHolds(s0, events, s);
    StepKept(s, e);
    ForwardIsGuarded(s.proxy, e, o);
    GuardIsExact(o.request.cmd, 0);
  }

  lemma {:induction false} FlushGuarded(s: Proxy, c: nat, queue: seq<ClientData>, o: Out)
    requires c in s.clients && s.pipe.Some? && (Open(s, c) ==> s.clients[c].browserSession.Some?)
    requires o in Flush(s, c, queue).outs && o.Forward?
    ensures BlockedInside(o.request.cmd, 0).None? && (o.request.session.Some? ==> o.session == o.request.session.value)
    decreases |queue|
  {
    if queue != [] {
      FromClientKeeps(s, c, queue[0]);
      var d := FromClient(s, c, queue[0]);
      if o !in d.outs { FlushGuarded(d.proxy, c, queue[1..], o); }
    }
  }

  lemma ForwardIsGuarded(s: Proxy, e: Event, o: Out)
    requires Inv(s) && Enabled(s, e) && o in Next(s, e).outs && o.Forward?
    ensures BlockedInside(o.request.cmd, 0).None? && (o.request.session.Some? ==> o.session == o.request.session.value)
  {
    if e.AttachOver? && e.sid.Some? && Open(s, e.client) {
      FlushGuarded(Seated(s, e.client, e.sid.value), e.client, s.clients[e.client].queue, o);
    }
  }
}
