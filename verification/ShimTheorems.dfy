// The shim's promises on every run, and the run on which a second initialize breaks them.
module ShimTheorems {
  import opened Cookies
  import opened ShimSteps
  import opened ShimRuns

  ghost function First(): Sys {
    Sys(Started(), {}, [], Link(None, false, [], [], []), Past({}, {}, multiset{}, {}, {}, {}, []))
  }

  ghost predicate Reaches(s0: Sys, events: seq<Event>, s: Sys)
    decreases |events|
  {
    if events == [] then s == s0 else CanStep(s0, events[0]) && Reaches(Step(s0, events[0]), events[1..], s)
  }

  // ── replay order ──

  ghost predicate Suffix(a: seq<Line>, b: seq<Line>) {
    |a| <= |b| && a == b[|b| - |a|..]
  }

  ghost predicate LinkInv(s: Sys) {
    var h, l := s.shim, s.link;
    && (h.sock ==>
          && s.wire == l.opening + PassAll(l.sent)
          && (!h.ending ==> Suffix(l.sent, s.past.lines))
          && (if l.init.None? then l.opening == []
              else |l.opening| > 0 && match l.opening[0]
                                      case InitAgain(init) => init == l.init.value
                                      case InitReplay(_, init) => init == l.init.value
                                      case _ => false)
          && (l.init.Some? && l.init.value.id !in s.past.cancelled + s.past.lost + s.past.again ==>
              (l.opening[0].InitAgain? <==> l.unanswered)))
    && (!h.sock && !h.ending ==> Suffix(h.queue, s.past.lines) && s.wire == [])
    && (!h.sock ==> s.wire == [])
  }

  lemma {:induction false} PassAllMore(lines: seq<Line>, line: Line)
    ensures PassAll(lines + [line]) == PassAll(lines) + [Passed(line)]
  {
    assert (lines + [line])[..|lines|] == lines;
  }

  lemma SuffixMore(a: seq<Line>, b: seq<Line>, line: Line)
    requires Suffix(a, b)
    ensures Suffix(a + [line], b + [line])
  {
  }

  /** With no broker, the initialize is to be sent again exactly when it is unanswered. */
  lemma ResendIffUnanswered(s: Sys)
    requires Inv(s) && CanStep(s, Attached) && !s.shim.closed && s.shim.initMsg.Some?
    requires s.shim.initMsg.value.id !in s.past.cancelled + s.past.lost + s.past.again
    ensures s.shim.resendInit <==> Client(s.shim.initMsg.value.id) !in s.past.answers
  {
    var id := s.shim.initMsg.value.id;
    assert Once(s, id) && Shape(s);
    assert Requests(s.shim.queue)[Client(id)] == 0 && Client(id) !in s.owed;
  }

  ghost predicate Stays(s: Shim, t: Shim) {
    t.sock == s.sock && t.ending == s.ending && t.queue == s.queue && t.closed == s.closed
  }

  lemma OneStays(s: Shim, t: Shim, line: Line)
    requires Stays(s, t)
    ensures Stays(s, ToBroker(t, line))
  {
  }

  lemma {:induction false} AllStay(s: Shim, lines: seq<Line>)
    ensures Stays(s, ToBrokerAll(s, lines))
  {
    if lines != [] {
      AllStay(s, lines[..|lines| - 1]);
      hide Stays, ToBroker;
      OneStays(s, ToBrokerAll(s, lines[..|lines| - 1]), lines[|lines| - 1]);
    }
  }

  lemma LinkOpens(s: Sys)
    requires LinkInv(s) && Shape(s) && CanStep(s, Attached) && !s.shim.closed
    requires s.shim.initMsg.Some? && s.shim.initMsg.value.id !in s.past.cancelled + s.past.lost + s.past.again ==>
               (s.shim.resendInit <==> Client(s.shim.initMsg.value.id) !in s.past.answers)
    ensures LinkInv(Step(s, Attached))
  {
    var h := s.shim;
    hide Owes, PassAll, Requests, ToBrokerAll;
    AttachStep(s);
    AllStay(Ready(h), h.queue);
    assert s.wire == [] && Ready(h).sock && Ready(h).ending == h.ending;
    assert [] + Opening(h) + PassAll(h.queue) == Opening(h) + PassAll(h.queue);
    hide Step, Ready, Shape;
  }

  lemma LinkAtAttach(s: Sys)
    requires Inv(s) && LinkInv(s) && CanStep(s, Attached)
    ensures LinkInv(Step(s, Attached))
  {
    var h := s.shim;
    if h.closed {
      assert Step(s, Attached).shim.sock == h.sock;
    } else {
      assert Shape(s) && Once(s, "");
      if h.initMsg.Some? && h.initMsg.value.id !in s.past.cancelled + s.past.lost + s.past.again { ResendIffUnanswered(s); }
      hide *;
      LinkOpens(s);
    }
  }

  lemma LinkAtLine(s: Sys, line: Line)
    requires Shape(s) && LinkInv(s) && CanStep(s, ClientLine(line, false)) && !s.shim.ending
    ensures LinkInv(Step(s, ClientLine(line, false)))
  {
    hide Owes, Requests, PassAll;
    if s.shim.sock {
      PassAllMore(s.link.sent, line);
      assert s.wire + [Passed(line)] == s.link.opening + PassAll(s.link.sent + [line]);
      SuffixMore(s.link.sent, s.past.lines, line);
    } else {
      SuffixMore(s.shim.queue, s.past.lines, line);
    }
    hide Suffix;
  }

  /** Nothing was written, and nobody asked for anything new. */
  ghost predicate Unwritten(s: Sys, s': Sys) {
    && s'.link == s.link.(before := s'.link.before) && s'.wire == s.wire && s'.shim.sock == s.shim.sock && s'.past.lines == s.past.lines
    && (s'.shim.ending || (!s.shim.ending && (s'.shim.queue == s.shim.queue || s'.shim.queue == [])))
    && s.past.cancelled <= s'.past.cancelled && s.past.lost <= s'.past.lost && s.past.again <= s'.past.again
  }

  lemma LinkUnwritten(s: Sys, s': Sys)
    requires LinkInv(s) && Unwritten(s, s')
    ensures LinkInv(s')
  {
    hide PassAll;
  }

  lemma LinkAtClose(s: Sys)
    requires Shape(s) && LinkInv(s) && CanStep(s, BrokerClosed)
    ensures LinkInv(Step(s, BrokerClosed))
  {
    hide Owes, LostCalls, Requests, PassAll, LostInits, Again;
  }

  lemma NothingWritten(s: Sys, e: Event)
    requires CanStep(s, e) && !e.Attached? && !e.BrokerClosed? && (e.ClientLine? ==> e.big || s.shim.ending)
    ensures Unwritten(s, Step(s, e))
  {
    hide Owes, LostCalls, Requests, PassAll, LostInits, Again;
  }

  lemma LinkElsewhere(s: Sys, e: Event)
    requires Shape(s) && LinkInv(s) && CanStep(s, e) && !e.Attached?
    ensures LinkInv(Step(s, e))
  {
    hide *;
    if e.BrokerClosed? {
      LinkAtClose(s);
    } else if e.ClientLine? && !e.big && !s.shim.ending {
      LinkAtLine(s, e.line);
    } else {
      NothingWritten(s, e);
      LinkUnwritten(s, Step(s, e));
    }
  }

  // ── what every broker was written ──

  /** The last initialize of the client's that was written. */
  function LastInit(w: seq<Wire>): Option<Init> {
    if w == [] then None
    else
      match w[|w| - 1]
      case Passed(Request(id, Initialize(params))) => Some(Init(id, params))
      case _ => LastInit(w[..|w| - 1])
  }

  function Or(a: Option<Init>, b: Option<Init>): Option<Init> {
    if b.Some? then b else a
  }

  lemma {:induction false} LastInitParts(a: seq<Wire>, b: seq<Wire>)
    ensures LastInit(a + b) == Or(LastInit(a), LastInit(b))
    decreases |b|
  {
    if b == [] {
      assert a + b == a;
    } else {
      assert (a + b)[..|a + b| - 1] == a + b[..|b| - 1];
      LastInitParts(a, b[..|b| - 1]);
    }
  }

  lemma LastInitMore(a: seq<Wire>, x: Wire)
    ensures LastInit(a + [x]) == match x case Passed(Request(id, Initialize(params))) => Some(Init(id, params)) case _ => LastInit(a)
  {
    assert (a + [x])[..|a|] == a;
  }

  /** What the client's lines, once written, leave the shim with. */
  lemma {:induction false} AllKnown(h: Shim, lines: seq<Line>)
    ensures var t := ToBrokerAll(h, lines);
      && t.replays == h.replays && t.initMsg == Or(h.initMsg, LastInit(PassAll(lines)))
      && (t.initialized <==> h.initialized || Passed(Initialized) in PassAll(lines))
    ensures forall x :: x in PassAll(lines) ==> x.Passed?
    decreases |lines|
  {
    if lines != [] {
      var n := |lines| - 1;
      AllKnown(h, lines[..n]);
      LastInitMore(PassAll(lines[..n]), Passed(lines[n]));
    }
  }

  /** The shim remembers what was written: the client's last initialize, whether its Initialized went, and the replays numbered so far. */
  ghost predicate Remembers(h: Shim, w: seq<Wire>) {
    && h.initMsg == LastInit(w) && (h.initialized <==> Passed(Initialized) in w)
    && forall x :: x in w && x.InitReplay? ==> x.n <= h.replays
  }

  /** How a connection opens after `before` was written to earlier brokers: with nothing if no initialize went; else with the last one,
      under the client's id, or under a number never used, and then Initialized exactly if it went before. */
  ghost predicate Opens(opening: seq<Wire>, before: seq<Wire>) {
    var init := LastInit(before);
    if init.None? then opening == []
    else
      || opening == [InitAgain(init.value)]
      || (|opening| > 0 && opening[0].InitReplay? && opening[0].init == init.value
          && (forall x :: x in before && x.InitReplay? ==> x.n != opening[0].n)
          && opening[1..] == if Passed(Initialized) in before then [InitializedReplay] else [])
  }

  ghost predicate WrittenInv(s: Sys) {
    && Remembers(s.shim, s.link.before + s.wire)
    && (s.shim.sock ==> Opens(s.link.opening, s.link.before) && s.link.init == LastInit(s.link.before))
    && (!s.shim.sock ==> s.wire == [])
  }

  lemma RemembersPassed(h: Shim, w: seq<Wire>, line: Line)
    requires Remembers(h, w)
    ensures Remembers(ToBroker(h, line), w + [Passed(line)])
  {
    LastInitMore(w, Passed(line));
  }

  lemma OpenedRemembers(h: Shim, w: seq<Wire>)
    requires Remembers(h, w) && !h.closed
    ensures Remembers(Ready(h), w + Opening(h)) && Opens(Opening(h), w)
  {
    if h.initMsg.Some? {
      var init := h.initMsg.value;
      LastInitMore(w, InitAgain(init));
      LastInitMore(w, InitReplay(h.replays + 1, init));
      LastInitMore(w + [InitReplay(h.replays + 1, init)], InitializedReplay);
      assert w + ([InitReplay(h.replays + 1, init)] + [InitializedReplay]) == (w + [InitReplay(h.replays + 1, init)]) + [InitializedReplay];
      assert [InitReplay(h.replays + 1, init)] + [] == [InitReplay(h.replays + 1, init)];
    } else {
      assert w + [] == w;
    }
  }

  lemma QueueRemembers(h: Shim, w: seq<Wire>, lines: seq<Line>)
    requires Remembers(h, w)
    ensures Remembers(ToBrokerAll(h, lines), w + PassAll(lines))
  {
    hide PassAll, LastInit, ToBrokerAll;
    AllKnown(h, lines);
    LastInitParts(w, PassAll(lines));
  }

  lemma AttachWrites(s: Sys)
    requires WrittenInv(s) && Shape(s) && CanStep(s, Attached)
    ensures WrittenInv(Step(s, Attached))
  {
    var h, w := s.shim, s.link.before;
    if h.closed {
      hide Owes, Opens, LastInit, Remembers;
      assert s.wire + [] == s.wire;
    } else {
      OpenAttachWrites(s);
      hide Step;
    }
  }

  lemma OpenAttachWrites(s: Sys)
    requires WrittenInv(s) && Shape(s) && CanStep(s, Attached) && !s.shim.closed
    ensures WrittenInv(Step(s, Attached))
  {
    var h, w := s.shim, s.link.before;
    AttachFinds(s);
    hide WrittenInv, Owes, ToBrokerAll, PassAll, Opens, LastInit, Remembers, Shape, Step, Opening, Ready;
    OpenedRemembers(h, w);
    QueueRemembers(Ready(h), w + Opening(h), h.queue);
    AllStay(Ready(h), h.queue);
    ReadySock(h);
    assert (w + Opening(h)) + PassAll(h.queue) == w + (Opening(h) + PassAll(h.queue));
    AttachLeaves(s);
  }

  lemma AttachFinds(s: Sys)
    requires WrittenInv(s) && Shape(s) && CanStep(s, Attached)
    ensures s.wire == [] && Remembers(s.shim, s.link.before) && s.shim.initMsg == LastInit(s.link.before)
  {
    assert s.link.before + [] == s.link.before;
    hide Owes, Opens, LastInit;
  }

  lemma AttachLeaves(s: Sys)
    requires CanStep(s, Attached) && !s.shim.closed && s.wire == []
    requires var h, w := s.shim, s.link.before;
      && Remembers(ToBrokerAll(Ready(h), h.queue), w + (Opening(h) + PassAll(h.queue))) && Opens(Opening(h), w)
      && h.initMsg == LastInit(w) && ToBrokerAll(Ready(h), h.queue).sock
    ensures WrittenInv(Step(s, Attached))
  {
    hide Owes, ToBrokerAll, PassAll, Opens, LastInit, Remembers, Opening, Ready;
    AttachStep(s);
    assert [] + Opening(s.shim) + PassAll(s.shim.queue) == Opening(s.shim) + PassAll(s.shim.queue);
    hide Step;
    assert Step(s, Attached).link == LinkOf(s, Attached);
  }

  lemma ReadySock(h: Shim)
    ensures Ready(h).sock
  {
  }

  lemma LineWrites(s: Sys, line: Line, big: bool)
    requires WrittenInv(s) && CanStep(s, ClientLine(line, big))
    ensures WrittenInv(Step(s, ClientLine(line, big)))
  {
    hide Owes, Opens, LastInit, Requests;
    if !s.shim.ending && !big && s.shim.sock {
      RemembersPassed(s.shim, s.link.before + s.wire, line);
      assert (s.link.before + s.wire) + [Passed(line)] == s.link.before + (s.wire + [Passed(line)]);
    } else {
      assert s.wire + [] == s.wire;
    }
  }

  lemma CloseWrites(s: Sys)
    requires WrittenInv(s) && CanStep(s, BrokerClosed)
    ensures WrittenInv(Step(s, BrokerClosed))
  {
    hide Owes, Opens, LastInit, LostCalls, LostInits, Again;
    assert (s.link.before + s.wire) + [] == s.link.before + s.wire;
  }

  lemma OtherWrites(s: Sys, e: Event)
    requires WrittenInv(s) && CanStep(s, e) && !e.Attached? && !e.ClientLine? && !e.BrokerClosed?
    ensures WrittenInv(Step(s, e))
  {
    hide Owes, Opens, LastInit, Requests;
    assert s.wire + [] == s.wire;
  }

  lemma WrittenKept(s: Sys, e: Event)
    requires Shape(s) && WrittenInv(s) && CanStep(s, e)
    ensures WrittenInv(Step(s, e))
  {
    hide *;
    match e
    case Attached => AttachWrites(s);
    case ClientLine(line, big) => LineWrites(s, line, big);
    case BrokerClosed => CloseWrites(s);
    case _ => OtherWrites(s, e);
  }

  lemma {:induction false} RunHolds(s0: Sys, events: seq<Event>, s: Sys)
    requires Inv(s0) && LinkInv(s0) && WrittenInv(s0) && Reaches(s0, events, s)
    ensures Inv(s) && LinkInv(s) && WrittenInv(s)
    decreases |events|
  {
    if events != [] {
      var e := events[0];
      InvKept(s0, e);
      if e.Attached? { LinkAtAttach(s0); } else { LinkElsewhere(s0, e); }
      assert Shape(s0);
      hide Inv, LinkInv, WrittenInv, Step, CanStep;
      WrittenKept(s0, e);
      RunHolds(Step(s0, e), events[1..], s);
    }
  }

  lemma FirstHolds()
    ensures Inv(First()) && LinkInv(First()) && WrittenInv(First())
  {
  }

  // ── the promises ──

  /** No response ever carries an id the shim made up: the reply to a replayed initialize never reaches the client. */
  lemma ReplaysStayInside(events: seq<Event>, s: Sys, r: Id)
    requires Reaches(First(), events, s) && r in s.past.answers
    ensures r.Client?
  {
    FirstHolds();
    RunHolds(First(), events, s);
  }

  /** Over any run of broker deaths, reconnects and unavailable brokers, a request is answered at most once, unless it is an
      initialize the shim sent again because of an older one in flight. */
  lemma AnsweredAtMostOnce(events: seq<Event>, s: Sys, id: string)
    requires Reaches(First(), events, s) && id !in s.past.again
    ensures s.past.answers[Client(id)] <= 1
    ensures s.past.answers[Client(id)] == 1 ==> id in s.past.asked
  {
    FirstHolds();
    RunHolds(First(), events, s);
    assert Once(s, id);
  }

  /** Nothing is under way: no connection is being made and the broker answered everything. */
  predicate Quiet(s: Sys) {
    !s.shim.ending && !s.shim.connecting && s.owed == {}
  }

  /** Once things are quiet, every uncancelled request has one answer, one more if it is an initialize the shim sent again
      because of an older one in flight, and one less if it is an older initialize that was in flight when a broker died. */
  lemma AnswersCounted(events: seq<Event>, s: Sys, id: string)
    requires Reaches(First(), events, s) && Quiet(s) && id in s.past.asked && id !in s.past.cancelled
    ensures s.past.answers[Client(id)] == 1 + One(id in s.past.again) - One(id in s.past.lost)
  {
    FirstHolds();
    RunHolds(First(), events, s);
    assert Once(s, id) && Shape(s);
    assert Requests([]) == multiset{};
  }

  /** Exactly one, unless it is an older initialize that was in flight with a newer one when a broker died, which gets none,
      or one sent again. */
  lemma AnsweredExactlyOnce(events: seq<Event>, s: Sys, id: string)
    requires Reaches(First(), events, s) && Quiet(s) && id in s.past.asked && id !in s.past.cancelled && id !in s.past.again
    ensures s.past.answers[Client(id)] == 1 <==> id !in s.past.lost
    ensures id in s.past.lost ==> s.past.answers[Client(id)] == 0
  {
    AnswersCounted(events, s, id);
  }

  /** Twice exactly when it was sent again and not lost after that. */
  lemma AnsweredTwice(events: seq<Event>, s: Sys, id: string)
    requires Reaches(First(), events, s) && Quiet(s) && id in s.past.asked && id !in s.past.cancelled
    ensures s.past.answers[Client(id)] == 2 <==> id in s.past.again && id !in s.past.lost
    ensures s.past.answers[Client(id)] <= 2
  {
    AnswersCounted(events, s, id);
  }

  /** A client that sends initialize once has every request answered. */
  lemma OneInitialize(events: seq<Event>, s: Sys)
    requires Reaches(First(), events, s) && forall a, b :: a in s.past.inits && b in s.past.inits ==> a == b
    ensures s.past.lost == {} && s.past.again == {}
  {
    FirstHolds();
    RunHolds(First(), events, s);
    forall id ensures id !in s.past.lost && id !in s.past.again {
      if id in s.past.lost || id in s.past.again { assert false; }
    }
  }

  /** Every connection opened after an initialize was sent begins with that initialize, under the client's id exactly when it is
      unanswered; under a number of the shim's, never used before, it is followed by Initialized exactly if the client's went to a broker
      before. Nothing else comes before the client's lines, which come in its order and none left out. */
  lemma ReplayOrder(events: seq<Event>, s: Sys)
    requires Reaches(First(), events, s) && s.shim.sock && !s.shim.ending
    ensures s.wire == s.link.opening + PassAll(s.link.sent) && Suffix(s.link.sent, s.past.lines)
    ensures Opens(s.link.opening, s.link.before) && s.link.init == LastInit(s.link.before)
    ensures s.link.init.None? ==> s.link.opening == []
    ensures var init := s.link.init;
            init.Some? && init.value.id !in s.past.cancelled + s.past.lost + s.past.again ==>
              |s.wire| > 0 && if s.link.unanswered then s.wire[0] == InitAgain(init.value) else s.wire[0].InitReplay? && s.wire[0].init == init.value
  {
    FirstHolds();
    RunHolds(First(), events, s);
  }

  // ── two initializes at a broker's death ──

  lemma {:induction false} ReachesThen(s0: Sys, events: seq<Event>, s: Sys, e: Event)
    requires Reaches(s0, events, s) && CanStep(s, e)
    ensures Reaches(s0, events + [e], Step(s, e))
    decreases |events|
  {
    if events == [] {
      assert Reaches(Step(s, e), (events + [e])[1..], Step(s, e));
    } else {
      assert (events + [e])[1..] == events[1..] + [e];
      ReachesThen(Step(s0, events[0]), events[1..], s, e);
    }
  }

  ghost predicate Reached(s: Sys) {
    exists events :: Reaches(First(), events, s)
  }

  lemma Then(s: Sys, e: Event) returns (s': Sys)
    requires Reached(s) && CanStep(s, e)
    ensures s' == Step(s, e) && Reached(s')
  {
    var events :| Reaches(First(), events, s);
    ReachesThen(First(), events, s, e);
    s' := Step(s, e);
  }

  const FIRST := Initialize("first")
  const SECOND := Initialize("second")

  /** Both initializes are with the broker. */
  lemma TwoSent() returns (s: Sys)
    ensures Reached(s) && s.shim.sock && !s.shim.ending && !s.shim.closed && !s.shim.connecting && s.shim.queue == [] &&
        !s.shim.resendInit
    ensures s.shim.inflight == map["1" := FIRST, "2" := SECOND] && s.shim.initMsg == Some(Init("2", "second")) &&
        s.shim.replayId.None?
    ensures s.owed == {Client("1"), Client("2")} && s.past.answers == multiset{} && s.past.asked == {"1", "2"} &&
        s.past.cancelled == {}
    ensures s.past.lost == {} && s.past.again == {}
  {
    assert Reaches(First(), [], First());
    hide LinkOf, LostInits, Again;
    s := First();
    OwesNothing();
    s := Then(s, Attached);
    assert s.owed == {} && s.shim.inflight == map[];
    s := Sends(s, "1", "first");
    s := Sends(s, "2", "second");
  }

  /** An initialize goes to the broker. */
  lemma Sends(s: Sys, id: string, params: string) returns (s': Sys)
    requires Reached(s) && s.shim.sock && !s.shim.ending && id !in s.past.asked
    ensures Reached(s') && s'.shim == s.shim.(initMsg := Some(Init(id, params)), inflight := s.shim.inflight[id := Initialize(params)])
    ensures s'.owed == s.owed + {Client(id)} && s'.past.answers == s.past.answers && s'.past.asked == s.past.asked + {id}
    ensures s'.past.cancelled == s.past.cancelled && s'.past.lost == s.past.lost && s'.past.again == s.past.again
  {
    hide Owes, LinkOf;
    OwesOne(Passed(Request(id, Initialize(params))));
    s' := Then(s, ClientLine(Request(id, Initialize(params)), false));
  }

  /** A broker dies on `s`, which has the second initialize as its newest and the first in flight; the next one gets it again and answers. */
  lemma DiesAndAnswers(s: Sys) returns (s': Sys)
    requires Reached(s) && s.shim.sock && !s.shim.ending && !s.shim.closed && s.shim.queue == []
    requires s.shim.initMsg == Some(Init("2", "second")) && "1" in s.shim.inflight && s.shim.inflight["1"] == FIRST
    requires forall id :: id in s.shim.inflight ==> s.shim.inflight[id].Initialize?
    ensures Reached(s') && Quiet(s') && s'.past.answers == s.past.answers + multiset{Client("2")}
    ensures s'.past.asked == s.past.asked && s'.past.cancelled == s.past.cancelled
    ensures s'.past.lost == s.past.lost + LostInits(s.shim) && s'.past.again == s.past.again + Again(s.shim)
  {
    assert IsInit(s.shim, "1") && InitLost(s.shim);
    assert LostCalls(s.shim) == {};
    var s1 := Then(s, BrokerClosed);
    assert s1.shim.resendInit && s1.shim.connecting && s1.past.answers == s.past.answers;
    OpeningOwes(s1.shim);
    assert PassAll([]) == [] && Opening(s1.shim) + [] == Opening(s1.shim);
    hide Owes, LostCalls, LostInits, Again, InitLost;
    var s2 := Then(s1, Attached);
    assert s2.owed == {Client("2")} && s2.past.answers == s.past.answers;
    s' := Then(s2, BrokerReply(Client("2")));
  }

  /** Two initializes in flight when a broker dies: the first is never answered. */
  lemma FirstInitializeLost() returns (s: Sys)
    ensures Reached(s) && Quiet(s) && "1" in s.past.asked && "1" !in s.past.cancelled &&
        s.past.answers[Client("1")] == 0 && s.past.lost == {"1"}
  {
    s := TwoSent();
    assert LostInits(s.shim) == {"1"};
    hide LostInits, Again, Owes;
    s := DiesAndAnswers(s);
  }

  /** The second answered, the first in flight when the broker dies: the second is answered twice. */
  lemma SecondInitializeTwice() returns (s: Sys)
    ensures Reached(s) && Quiet(s) && "2" in s.past.asked && s.past.answers[Client("2")] == 2 && s.past.again == {"2"}
  {
    s := TwoSent();
    hide Owes;
    s := Then(s, BrokerReply(Client("2")));
    assert s.shim.inflight == map["1" := FIRST];
    assert IsInit(s.shim, "1") && InitLost(s.shim) && Again(s.shim) == {"2"};
    assert s.past.answers == multiset{Client("2")};
    hide Again, LostInits, InitLost;
    s := DiesAndAnswers(s);
  }
}
