// Shim as the source runs it: its fields updated in place by handlers. Each method
// does what the event of the same kind in ShimSteps says.
module ShimClass {
  import opened Cookies
  import S = ShimSteps
  import opened ShimSteps

  class Shim {
    var sock: bool
    var connecting: bool
    var queue: seq<Line>
    var inflight: map<string, Verb>
    var initMsg: Option<Init>
    var initialized: bool
    var resendInit: bool
    var replayId: Option<nat>
    var replays: nat
    var ending: bool
    var closed: bool
    var exited: bool
    // the ids of the responses written to the client, and what was written to the brokers
    var answers: multiset<Id>
    var wire: seq<Wire>

    ghost function State(): S.Shim
      reads this
    {
      S.Shim(sock, connecting, queue, inflight, initMsg, initialized, resendInit, replayId, replays, ending, closed, exited)
    }

    /** The object made the step d. */
    ghost predicate Made(d: Done, answered: multiset<Id>, written: seq<Wire>)
      reads this
    {
      State() == d.shim && answers == answered + d.answers && wire == written + d.wire
    }

    constructor ()
      ensures State() == Started() && answers == multiset{} && wire == []
    {
      sock, connecting, queue, inflight, initMsg, initialized := false, true, [], map[], None, false;
      resendInit, replayId, replays, ending, closed, exited := false, None, 0, false, false, false;
      answers, wire := multiset{}, [];
    }

    /** The client gets one response with this id. */
    method Answer(id: Id)
      modifies `answers
      ensures answers == old(answers) + multiset{id}
    {
      answers := answers + multiset{id};
    }

    /** A broker is looked for, unless one is connected or looked for already, or the shim is over. */
    method StartConnecting()
      modifies `connecting
      ensures State() == Connect(old(State()))
    {
      if connecting || sock || closed { return; }
      connecting := true;
    }

    /** A line goes to the broker; the shim notes what it must remember. */
    method WriteLine(line: Line)
      modifies `initMsg, `initialized, `inflight, `wire
      ensures State() == ToBroker(old(State()), line) && wire == old(wire) + [Passed(line)]
    {
      match line {
        case Request(id, verb) =>
          if verb.Initialize? { initMsg := Some(Init(id, verb.params)); }
          inflight := inflight[id := verb];
        case Cancel(id) => inflight := inflight - {id};
        case Initialized => initialized := true;
        case Other(_) =>
      }
      wire := wire + [Passed(line)];
    }

    /** A client's line reaches the broker, or waits for one in order; an oversized request is answered with an error at once,
        and nothing is taken any more once the client has gone. */
    method OnClientLine(line: Line, big: bool)
      modifies `queue, `connecting, `initMsg, `initialized, `inflight, `wire, `answers
      ensures Made(FromClient(old(State()), line, big), old(answers), old(wire))
    {
      if ending { return; }
      if big {
        if line.Request? { Answer(Client(line.id)); }
        return;
      }
      if sock {
        WriteLine(line);
        return;
      }
      queue := queue + [line];
      StartConnecting();
    }

    /** A reply reaches the client, except the one to an initialize the shim replayed itself. */
    method OnBrokerReply(id: Id)
      modifies `replayId, `inflight, `answers
      ensures Made(FromBroker(old(State()), id), old(answers), old(wire))
    {
      match id {
        case Replay(n) =>
          if replayId == Some(n) {
            replayId := None;
            return;
          }
        case Client(i) => inflight := inflight - {i};
      }
      Answer(id);
    }

    /** A broker accepted: it gets the client's initialize first, then the lines that waited, in order, and nothing waits any more. */
    method OnAttach()
      modifies `sock, `connecting, `queue, `resendInit, `replayId, `replays, `initMsg, `initialized, `inflight, `wire
      ensures Made(Attach(old(State())), old(answers), old(wire))
    {
      hide Opened, Opening, ToBrokerAll;
      if closed { connecting := false; } else { OpenAndSend(); }
    }

    /** The opening, then every line that waited. */
    method OpenAndSend()
      requires !closed
      modifies `sock, `connecting, `queue, `resendInit, `replayId, `replays, `initMsg, `initialized, `inflight, `wire
      ensures State() == ToBrokerAll(Opened(old(State())).(queue := []), old(queue))
      ensures wire == old(wire) + (Opening(old(State())) + PassAll(old(queue)))
    {
      hide Opened, Opening, ToBrokerAll;
      var lines := queue;
      WriteOpening();
      queue := [];
      WriteAll(lines);
    }

    /** The initialize, if there is one: again under the client's id, or replayed under one of the shim's. */
    method WriteOpening()
      requires !closed
      modifies `sock, `connecting, `resendInit, `replayId, `replays, `initMsg, `inflight, `wire
      ensures State() == Opened(old(State())) && wire == old(wire) + Opening(old(State()))
    {
      connecting, sock := false, true;
      if initMsg.None? { return; }
      if resendInit {
        resendInit := false;
        WriteAgain(initMsg.value);
        return;
      }
      replays := replays + 1;
      replayId := Some(replays);
      wire := wire + [InitReplay(replays, initMsg.value)];
      if initialized { wire := wire + [InitializedReplay]; }
    }

    /** The initialize again, under the client's id. */
    method WriteAgain(init: Init)
      modifies `initMsg, `inflight, `wire
      ensures State() == ToBroker(old(State()), Request(init.id, Initialize(init.params))) &&
          wire == old(wire) + [InitAgain(init)]
    {
      initMsg := Some(init);
      inflight := inflight[init.id := Initialize(init.params)];
      wire := wire + [InitAgain(init)];
    }

    /** The lines go to the broker one by one, each noted as when it is sent alone. */
    method WriteAll(lines: seq<Line>)
      modifies `initMsg, `initialized, `inflight, `wire
      ensures State() == ToBrokerAll(old(State()), lines) && wire == old(wire) + PassAll(lines)
    {
      hide ToBroker;
      for i := 0 to |lines|
        invariant State() == ToBrokerAll(old(State()), lines[..i]) && wire == old(wire) + PassAll(lines[..i])
        modifies `initMsg, `initialized, `inflight, `wire
      {
        assert lines[..i + 1][..i] == lines[..i];
        WriteLine(lines[i]);
      }
      assert lines[..|lines|] == lines;
    }

    /** The broker's connection closed: every request in flight is answered with an error, but for an initialize, which the next
        broker gets again; a shim that was ending exits. */
    method OnBrokerGone()
      modifies `sock, `replayId, `inflight, `resendInit, `connecting, `exited, `closed, `answers
      ensures Made(BrokerGone(old(State())), old(answers), old(wire))
    {
      hide LostCalls, InitLost, Connect;
      if ending {
        sock, replayId := false, None;
        DoExit();
      } else {
        LoseBroker();
      }
    }

    /** ... while the client is still there: a new broker is looked for if an initialize is owed. */
    method LoseBroker()
      requires !ending
      modifies `sock, `replayId, `inflight, `resendInit, `connecting, `answers
      ensures Made(BrokerGone(old(State())), old(answers), old(wire))
    {
      BrokerGoneIs(State());
      hide LostCalls, InitLost, Connect, BrokerGone;
      ghost var was := State();
      var lost := AnswerLost();
      sock, replayId, inflight, resendInit := false, None, map[], resendInit || lost;
      ghost var s1 := State();
      assert s1 == was.(sock := false, replayId := None, inflight := map[], resendInit := was.resendInit || InitLost(was));
      if resendInit { StartConnecting(); }
      assert State() == if s1.resendInit then Connect(s1) else s1;
    }

    /** Answer what the dead broker will not, but for an initialize; returns whether one was in flight. */
    method AnswerLost() returns (init: bool)
      modifies `answers
      ensures init <==> InitLost(State())
      ensures answers == old(answers) + multiset(LostCalls(State()))
    {
      init := false;
      var todo := inflight.Keys;
      ghost var done: set<Id> := {};
      ghost var calls := LostCalls(State());
      assert forall id :: id in inflight ==> (Client(id) in calls <==> !inflight[id].Initialize?);
      assert forall r :: r in calls ==> r.Client? && r.id in inflight;
      InitLostIs(State());
      hide LostCalls, InitLost, IsInit;
      while todo != {}
        invariant todo <= inflight.Keys
        invariant forall r :: r in done <==> r in calls && r.id !in todo
        invariant answers == old(answers) + multiset(done)
        invariant init <==> exists id :: id in inflight && id !in todo && inflight[id].Initialize?
        modifies `answers
        decreases |todo|
      {
        var id :| id in todo;
        if inflight[id].Initialize? {
          init := true;
        } else {
          Answer(Client(id));
          OneMore(done, Client(id));
          done := done + {Client(id)};
        }
        todo := todo - {id};
      }
      assert done == calls;
    }

    /** No broker could be reached: every request that waited for one is answered with an error, and nothing is owed any more. */
    method OnUnavailable()
      modifies `connecting, `resendInit, `queue, `answers
      ensures Made(Unavailable(old(State())), old(answers), old(wire))
    {
      if closed { connecting := false; } else { GiveUp(); }
    }

    /** Everything that waited is answered; the queue is empty. */
    method GiveUp()
      requires !closed
      modifies `connecting, `resendInit, `queue, `answers
      ensures Made(Unavailable(old(State())), old(answers), old(wire))
    {
      hide Requests, Unavailable;
      UnavailableIs(State());
      FailWaiting();
      connecting, resendInit, queue := false, false, [];
    }

    /** An initialize lost with the old broker cannot be sent again now, nor can the queue. */
    method FailWaiting()
      modifies `answers
      ensures answers == old(answers) + ((if resendInit && initMsg.Some? then multiset{Client(initMsg.value.id)} else multiset{}) + Requests(queue))
    {
      hide Requests;
      if resendInit && initMsg.Some? { Answer(Client(initMsg.value.id)); }
      FailAll(queue);
    }

    /** An error answer for each request among these lines. */
    method FailAll(lines: seq<Line>)
      modifies `answers
      ensures answers == old(answers) + Requests(lines)
    {
      for i := 0 to |lines|
        invariant answers == old(answers) + Requests(lines[..i])
        modifies `answers
      {
        assert lines[..i + 1][..i] == lines[..i];
        if lines[i].Request? { Answer(Client(lines[i].id)); }
      }
      assert lines[..|lines|] == lines;
    }

    /** The shim is over, once. */
    method DoExit()
      modifies `exited, `closed
      ensures State() == Exit(old(State()))
    {
      if exited { return; }
      exited, closed := true, true;
    }

    /** The client went: what waited is dropped, and the shim exits at once unless a broker may still answer. */
    method OnClientGone()
      modifies `ending, `queue, `closed, `exited
      ensures State() == ClientGone(old(State()))
    {
      if ending { return; }
      ending, queue := true, [];
      if !sock {
        closed := true;
        DoExit();
      }
    }
  }

  lemma OneMore(ids: set<Id>, id: Id)
    requires id !in ids
    ensures multiset(ids + {id}) == multiset(ids) + multiset{id}
  {
  }

  lemma BrokerGoneIs(s: S.Shim)
    requires !s.ending
    ensures var s1 := s.(sock := false, replayId := None, inflight := map[], resendInit := s.resendInit || InitLost(s));
      BrokerGone(s) == Done(if s1.resendInit then Connect(s1) else s1, multiset(LostCalls(s)), [])
  {
    hide LostCalls, InitLost, Connect;
  }

  lemma InitLostIs(s: S.Shim)
    ensures InitLost(s) <==> exists id :: id in s.inflight && s.inflight[id].Initialize?
  {
    if id :| id in s.inflight && s.inflight[id].Initialize? { assert IsInit(s, id); }
    if InitLost(s) {
      var id :| IsInit(s, id);
      assert id in s.inflight && s.inflight[id].Initialize?;
    }
  }

  lemma UnavailableIs(s: S.Shim)
    requires !s.closed
    ensures Unavailable(s).shim == s.(connecting := false, resendInit := false, queue := []) && Unavailable(s).wire == []
    ensures Unavailable(s).answers == (if s.resendInit && s.initMsg.Some? then multiset{Client(s.initMsg.value.id)} else multiset{}) + Requests(s.queue)
  {
    hide Requests;
  }
}
