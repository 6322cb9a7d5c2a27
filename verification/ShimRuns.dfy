// One answer per request, over any run of broker deaths and reconnects.
module ShimRuns {
  import opened Cookies
  import opened ShimSteps

  /** What happened: the requests asked, those cancelled, the responses given by id, the initialize requests, and
      two sets only a client that sends initialize twice fills: `lost`, an older initialize in flight when a broker
      died; `again`, a newer one sent again although it was not in flight. `lines`: what the client sent, in order. */
  datatype Past = Past(asked: set<string>, cancelled: set<string>, answers: multiset<Id>, inits: set<string>,
      lost: set<string>, again: set<string>, lines: seq<Line>)

  /** How the current connection opened: the initialize known then, whether it was unanswered, and what the shim wrote
      before the client's lines. `before`: everything written to the brokers before it. `sent`: the client's lines written since. */
  datatype Link = Link(init: Option<Init>, unanswered: bool, before: seq<Wire>, opening: seq<Wire>, sent: seq<Line>)

  /** `owed`: the requests of the current connection the broker has not answered. `wire`: what was written to it. */
  datatype Sys = Sys(shim: Shim, owed: set<Id>, wire: seq<Wire>, link: Link, past: Past)

  /** A client numbers its requests afresh; a broker answers only what it was asked, once. */
  predicate CanStep(s: Sys, e: Event) {
    && Enabled(s.shim, e)
    && (e.ClientLine? && e.line.Request? ==> e.line.id !in s.past.asked)
    && (e.BrokerReply? ==> e.id in s.owed)
  }

  function OwedFor(w: Wire): set<Id> {
    match w
    case Passed(Request(id, _)) => {Client(id)}
    case InitReplay(n, _) => {Replay(n)}
    case InitAgain(init) => {Client(init.id)}
    case _ => {}
  }

  function Owes(wire: seq<Wire>): set<Id> {
    if wire == [] then {} else Owes(wire[..|wire| - 1]) + OwedFor(wire[|wire| - 1])
  }

  ghost function LostInits(s: Shim): set<string> {
    set id | id in s.inflight && s.inflight[id].Initialize? && (s.initMsg.None? || s.initMsg.value.id != id)
  }

  ghost function Again(s: Shim): set<string> {
    if InitLost(s) && s.initMsg.Some? && s.initMsg.value.id !in s.inflight then {s.initMsg.value.id} else {}
  }

  ghost function PastOf(s: Sys, e: Event): Past
    requires CanStep(s, e)
  {
    var p, answers := s.past, s.past.answers + Next(s.shim, e).answers;
    match e
    case ClientLine(line, big) =>
      if s.shim.ending then p
      else
        p.(asked := if line.Request? then p.asked + {line.id} else p.asked,
           inits := if line.Request? && line.verb.Initialize? then p.inits + {line.id} else p.inits,
           cancelled := if line.Cancel? && !big then p.cancelled + {line.id} else p.cancelled,
           lines := if big then p.lines else p.lines + [line],
           answers := answers)
    case BrokerClosed =>
      if s.shim.ending then p
      else p.(lost := p.lost + LostInits(s.shim), again := p.again + Again(s.shim), answers := answers)
    case _ => p.(answers := answers)
  }

  function LinkOf(s: Sys, e: Event): Link
    requires CanStep(s, e)
  {
    var h := s.shim;
    match e
    case Attached =>
      Link(h.initMsg, h.initMsg.Some? && Client(h.initMsg.value.id) !in s.past.answers, s.link.before, Opening(h), h.queue)
    case BrokerClosed => s.link.(before := s.link.before + s.wire)
    case ClientLine(line, big) => if h.ending || big || !h.sock then s.link else s.link.(sent := s.link.sent + [line])
    case _ => s.link
  }

  ghost function Step(s: Sys, e: Event): Sys
    requires CanStep(s, e)
  {
    var d := Next(s.shim, e);
    Sys(d.shim,
        if e.BrokerClosed? then {} else if e.BrokerReply? then s.owed - {e.id} else s.owed + Owes(d.wire),
        if e.BrokerClosed? then [] else s.wire + d.wire,
        LinkOf(s, e),
        PastOf(s, e))
  }

  // ── the invariant ──

  function One(b: bool): nat { if b then 1 else 0 }

  predicate ResendOwed(s: Shim, id: string) {
    s.resendInit && s.initMsg.Some? && s.initMsg.value.id == id
  }

  /** Where request `id` waits for its answer: in the queue, at the broker, or to be sent again. */
  function Waits(s: Sys, id: string): nat {
    Requests(s.shim.queue)[Client(id)] + One(Client(id) in s.owed) + One(ResendOwed(s.shim, id))
  }

  /** The request was lost, or sent again. */
  predicate Marked(p: Past, id: string) {
    id in p.again || id in p.lost
  }

  ghost predicate Once(s: Sys, id: string) {
    var h, p, n := s.shim, s.past, Waits(s, id) + s.past.answers[Client(id)];
    && (id !in p.asked ==> n == 0)
    && n <= 1 + One(id in p.again)
    && (id in p.lost && id !in p.again ==> n == 0)
    && (id in p.asked && id !in p.cancelled && !h.ending ==> n == 1 + One(id in p.again) - One(id in p.lost))
    && (id in h.inflight && h.sock ==> Client(id) in s.owed)
    && (Client(id) in s.owed && id !in p.cancelled ==> id in h.inflight)
    && (id in h.inflight ==> id in p.asked && (h.inflight[id].Initialize? <==> id in p.inits))
    && (id in h.inflight && id in p.inits ==> h.initMsg.Some?)
    && (Marked(p, id) ==> Requests(h.queue)[Client(id)] == 0)
    && (id in p.again && id !in p.cancelled ==> p.answers[Client(id)] > 0)
    && (h.initMsg.Some? && id in p.lost ==> h.initMsg.value.id != id)
    && (h.initMsg.Some? && h.initMsg.value.id in p.again && IsInit(h, id) ==> h.initMsg.value.id == id)
  }

  predicate Noted(p: Past, line: Line) {
    && (line.Cancel? ==> line.id in p.cancelled)
    && (line.Request? ==> line.id in p.asked && (line.verb.Initialize? <==> line.id in p.inits) && !Marked(p, line.id))
  }

  ghost predicate Shape(s: Sys) {
    var h := s.shim;
    && (h.sock ==> h.queue == [] && !h.connecting && !h.resendInit)
    && (!h.sock ==> s.owed == {} && h.replayId.None? && (h.ending || h.inflight == map[]))
    && (h.closed ==> h.ending) && (h.ending && !h.sock ==> h.closed) && (h.exited ==> h.closed)
    && (h.ending ==> h.queue == [])
    && (!h.sock && (h.queue != [] || h.resendInit) ==> h.connecting || h.closed)
    && (forall r :: r in s.owed && r.Replay? ==> h.replayId == Some(r.n))
    && (h.resendInit ==> h.initMsg.Some?)
    && (forall r :: r in s.past.answers ==> r.Client?)
    && (h.initMsg.Some? ==> Requests(h.queue)[Client(h.initMsg.value.id)] == 0)
    && (h.initMsg.Some? ==> h.initMsg.value.id in s.past.asked && h.initMsg.value.id in s.past.inits)
    && (forall l :: l in h.queue ==> Noted(s.past, l))
    && s.past.inits <= s.past.asked && s.past.again + s.past.lost <= s.past.asked
  }

  /** Only a client that sent two initializes fills `lost` and `again`. */
  ghost predicate OnlyTwice(p: Past) {
    forall id :: id in p.lost || id in p.again ==> TwoInits(p)
  }

  ghost predicate TwoInits(p: Past) {
    exists a, b :: a in p.inits && b in p.inits && a != b
  }

  ghost predicate Inv(s: Sys) {
    Shape(s) && OnlyTwice(s.past) && forall id :: Once(s, id)
  }

  // ── lines that go to the broker one after the other ──

  lemma {:induction false} OwesParts(a: seq<Wire>, b: seq<Wire>)
    ensures Owes(a + b) == Owes(a) + Owes(b)
  {
    if b == [] {
      assert a + b == a;
    } else {
      assert (a + b)[..|a + b| - 1] == a + b[..|b| - 1];
      OwesParts(a, b[..|b| - 1]);
    }
  }

  lemma OwesOne(w: Wire)
    ensures Owes([w]) == OwedFor(w)
  {
    assert [w][..0] == [];
  }

  lemma RequestsMore(lines: seq<Line>, line: Line)
    ensures Requests(lines + [line]) == Requests(lines) + if line.Request? then multiset{Client(line.id)} else multiset{}
  {
    assert (lines + [line])[..|lines|] == lines;
  }

  lemma {:induction false} RequestsAreClients(lines: seq<Line>)
    ensures forall r :: r in Requests(lines) ==> r.Client?
  {
    if lines != [] { RequestsAreClients(lines[..|lines| - 1]); }
  }

  lemma {:induction false} PassedOwes(lines: seq<Line>, id: string)
    ensures Client(id) in Owes(PassAll(lines)) <==> Requests(lines)[Client(id)] > 0
    ensures forall r :: r in Owes(PassAll(lines)) ==> r.Client?
  {
    if lines != [] {
      var n := |lines| - 1;
      PassedOwes(lines[..n], id);
      assert PassAll(lines)[..n] == PassAll(lines[..n]);
    }
  }

  /** What is known of a shim's initialize messages. */
  predicate InitsKnown(s: Shim, p: Past, id: string) {
    && (s.initMsg.Some? ==> s.initMsg.value.id in p.asked && s.initMsg.value.id in p.inits)
    && (id in s.inflight ==> (s.inflight[id].Initialize? <==> id in p.inits))
    && (id in s.inflight && id in p.inits ==> s.initMsg.Some?)
  }

  /** t is s after lines holding `n` requests with this id went to the broker. */
  ghost predicate Passes(s: Shim, t: Shim, p: Past, id: string, n: nat) {
    && t.sock == s.sock && t.connecting == s.connecting && t.queue == s.queue && t.resendInit == s.resendInit &&
        t.replayId == s.replayId
    && t.ending == s.ending && t.closed == s.closed && t.exited == s.exited
    && InitsKnown(t, p, id) && (s.initMsg.Some? ==> t.initMsg.Some?)
    && (id in t.inflight ==> id in s.inflight || n > 0)
    && (id !in p.cancelled && (id in s.inflight || n > 0) ==> id in t.inflight)
    && (n > 0 ==> id in p.asked)
    && ((t.initMsg == s.initMsg && (IsInit(t, id) ==> IsInit(s, id))) || (t.initMsg.Some? && !Marked(p, t.initMsg.value.id)))
  }

  lemma RequestToBroker(s: Shim, t: Shim, line: Line, p: Past, id: string, n: nat)
    requires Passes(s, t, p, id, n) && Noted(p, line) && line.Request?
    ensures Passes(s, ToBroker(t, line), p, id, n + One(line.id == id))
  {
  }

  lemma CancelToBroker(s: Shim, t: Shim, line: Line, p: Past, id: string, n: nat)
    requires Passes(s, t, p, id, n) && Noted(p, line) && line.Cancel?
    ensures Passes(s, ToBroker(t, line), p, id, n)
  {
  }

  lemma OtherToBroker(s: Shim, t: Shim, line: Line, p: Past, id: string, n: nat)
    requires Passes(s, t, p, id, n) && Noted(p, line) && !line.Request?
    ensures Passes(s, ToBroker(t, line), p, id, n)
  {
    if line.Cancel? {
      hide *;
      CancelToBroker(s, t, line, p, id, n);
    } else {
      assert ToBroker(t, line) == t.(initialized := t.initialized || line.Initialized?);
      hide Marked;
    }
  }

  lemma OneToBroker(s: Shim, t: Shim, line: Line, p: Past, id: string, n: nat)
    requires Passes(s, t, p, id, n) && Noted(p, line)
    ensures Passes(s, ToBroker(t, line), p, id, n + One(line.Request? && line.id == id))
  {
    hide Passes, Noted, ToBroker;
    if line.Request? { RequestToBroker(s, t, line, p, id, n); } else { OtherToBroker(s, t, line, p, id, n); }
  }

  lemma {:induction false} AllToBroker(s: Shim, lines: seq<Line>, p: Past, id: string)
    requires (forall l :: l in lines ==> Noted(p, l)) && InitsKnown(s, p, id)
    ensures Passes(s, ToBrokerAll(s, lines), p, id, Requests(lines)[Client(id)])
  {
    if lines != [] {
      var n := |lines| - 1;
      assert Noted(p, lines[n]);
      AllToBroker(s, lines[..n], p, id);
      hide Passes, Noted;
      OneToBroker(s, ToBrokerAll(s, lines[..n]), lines[n], p, id, Requests(lines[..n])[Client(id)]);
    }
  }

  // ── every event ──

  lemma ConnectIs(h: Shim)
    ensures Connect(h) == h.(connecting := Connect(h).connecting)
  {
  }

  lemma LineQueuedIs(s: Sys, line: Line)
    requires CanStep(s, ClientLine(line, false)) && !s.shim.ending && !s.shim.sock
    ensures var t, h := Step(s, ClientLine(line, false)), s.shim;
      && t.shim == h.(queue := h.queue + [line], connecting := t.shim.connecting) && t.owed == s.owed
      && t.past.answers == s.past.answers && t.past.lost == s.past.lost && t.past.again == s.past.again
      && t.past.asked == (if line.Request? then s.past.asked + {line.id} else s.past.asked)
      && t.past.inits == (if line.Request? && line.verb.Initialize? then s.past.inits + {line.id} else s.past.inits)
      && t.past.cancelled == (if line.Cancel? then s.past.cancelled + {line.id} else s.past.cancelled)
  {
    hide Owes, LinkOf, Connect;
    ConnectIs(s.shim.(queue := s.shim.queue + [line]));
    OwesNothing();
  }

  /** The queued line is the request itself. */
  lemma RequestQueued(s: Sys, t: Sys, line: Line, id: string)
    requires Once(s, id) && CanStep(s, ClientLine(line, false)) && !s.shim.ending && !s.shim.sock
    requires line.Request? && line.id == id && t == Step(s, ClientLine(line, false))
    requires Marked(s.past, id) ==> id in s.past.asked
    ensures Once(t, id)
  {
    assert id !in s.past.asked;
    hide Requests, Step;
    LineQueuedIs(s, line);
    RequestsMore(s.shim.queue, line);
    assert Waits(s, id) + s.past.answers[Client(id)] == 0;
    assert Waits(t, id) == 1;
  }

  lemma OtherQueued(s: Sys, t: Sys, line: Line, id: string)
    requires Once(s, id) && CanStep(s, ClientLine(line, false)) && !s.shim.ending && !s.shim.sock
    requires !(line.Request? && line.id == id) && t == Step(s, ClientLine(line, false))
    ensures Once(t, id)
  {
    hide Requests, Step, CanStep;
    LineQueuedIs(s, line);
    RequestsMore(s.shim.queue, line);
    assert Waits(t, id) == Waits(s, id);
  }

  lemma LineQueued(s: Sys, line: Line, id: string)
    requires Once(s, id) && Shape(s) && CanStep(s, ClientLine(line, false)) && !s.shim.ending && !s.shim.sock
    ensures Once(Step(s, ClientLine(line, false)), id)
  {
    assert Marked(s.past, id) ==> id in s.past.asked;
    hide Once, Shape, Step, CanStep, Marked;
    if line.Request? && line.id == id {
      RequestQueued(s, Step(s, ClientLine(line, false)), line, id);
    } else {
      OtherQueued(s, Step(s, ClientLine(line, false)), line, id);
    }
  }

  lemma LinePassed(s: Sys, line: Line, id: string)
    requires Once(s, id) && Shape(s) && CanStep(s, ClientLine(line, false)) && !s.shim.ending && s.shim.sock
    ensures Once(Step(s, ClientLine(line, false)), id)
  {
    assert s.shim.queue == [] && !s.shim.resendInit;
    hide Owes, Shape;
    OwesOne(Passed(line));
  }

  lemma LineIgnored(s: Sys, line: Line, big: bool, id: string)
    requires Once(s, id) && CanStep(s, ClientLine(line, big)) && s.shim.ending
    ensures Once(Step(s, ClientLine(line, big)), id)
  {
    hide Requests, Owes, LinkOf;
    OwesNothing();
  }

  lemma LineTooBig(s: Sys, line: Line, id: string)
    requires Once(s, id) && CanStep(s, ClientLine(line, true)) && !s.shim.ending
    requires Marked(s.past, id) ==> id in s.past.asked
    ensures Once(Step(s, ClientLine(line, true)), id)
  {
    hide Requests, Owes, LinkOf;
    OwesNothing();
  }

  lemma LineKeeps(s: Sys, line: Line, big: bool, id: string)
    requires Once(s, id) && Shape(s) && CanStep(s, ClientLine(line, big))
    ensures Once(Step(s, ClientLine(line, big)), id)
  {
    assert Marked(s.past, id) ==> id in s.past.asked;
    hide *;
    if s.shim.ending { LineIgnored(s, line, big, id); }
    else if big { LineTooBig(s, line, id); }
    else if s.shim.sock { LinePassed(s, line, id); }
    else { LineQueued(s, line, id); }
  }

  lemma LineQueuedShape(s: Sys, line: Line)
    requires Shape(s) && CanStep(s, ClientLine(line, false)) && !s.shim.ending && !s.shim.sock
    ensures Shape(Step(s, ClientLine(line, false)))
  {
    hide Owes, Requests;
    OwesNothing();
    RequestsMore(s.shim.queue, line);
  }

  lemma LinePassedShape(s: Sys, line: Line)
    requires Shape(s) && CanStep(s, ClientLine(line, false)) && !s.shim.ending && s.shim.sock
    ensures Shape(Step(s, ClientLine(line, false)))
  {
    hide Owes;
    OwesOne(Passed(line));
    assert Requests([]) == multiset{};
  }

  lemma LineUnheardShape(s: Sys, line: Line, big: bool)
    requires Shape(s) && CanStep(s, ClientLine(line, big)) && (s.shim.ending || big)
    ensures Shape(Step(s, ClientLine(line, big)))
  {
    hide Owes, Requests, LinkOf;
    OwesNothing();
  }

  lemma MoreInits(s: Sys, line: Line, big: bool)
    requires OnlyTwice(s.past) && CanStep(s, ClientLine(line, big))
    ensures OnlyTwice(Step(s, ClientLine(line, big)).past)
  {
    hide Owes, Requests, LinkOf;
    assert TwoInits(s.past) ==> TwoInits(Step(s, ClientLine(line, big)).past);
    hide TwoInits;
  }

  lemma LineShape(s: Sys, line: Line, big: bool)
    requires Shape(s) && OnlyTwice(s.past) && CanStep(s, ClientLine(line, big))
    ensures Shape(Step(s, ClientLine(line, big))) && OnlyTwice(Step(s, ClientLine(line, big)).past)
  {
    hide *;
    MoreInits(s, line, big);
    if s.shim.ending || big {
      LineUnheardShape(s, line, big);
    } else if s.shim.sock {
      LinePassedShape(s, line);
    } else {
      LineQueuedShape(s, line);
    }
  }

  lemma OwesNothing()
    ensures Owes([]) == {}
  {
  }

  // ── a broker accepts ──

  lemma OpeningOwes(h: Shim)
    ensures Owes(Opening(h)) == if h.initMsg.None? then {} else if h.resendInit then {Client(h.initMsg.value.id)} else {Replay(h.replays + 1)}
  {
    OwesNothing();
    if h.initMsg.Some? {
      OwesOne(InitAgain(h.initMsg.value));
      OwesOne(InitReplay(h.replays + 1, h.initMsg.value));
      OwesOne(InitializedReplay);
      OwesParts([InitReplay(h.replays + 1, h.initMsg.value)], [InitializedReplay]);
    }
  }

  /** The shim with the opening written and its queue taken. */
  function Ready(h: Shim): Shim {
    Opened(h).(queue := [])
  }

  lemma ReadyIs(h: Shim, p: Past, id: string)
    requires !h.closed && InitsKnown(h, p, id) && (h.resendInit ==> h.initMsg.Some?)
    ensures var t := Ready(h);
            && t.sock && !t.connecting && t.queue == [] && !t.resendInit && t.ending == h.ending &&
                t.closed == h.closed && t.exited == h.exited
            && InitsKnown(t, p, id) && (id in t.inflight <==> id in h.inflight || ResendOwed(h, id))
            && t.replayId == if h.initMsg.Some? && !h.resendInit then Some(h.replays + 1) else h.replayId
  {
  }

  lemma AttachStep(s: Sys)
    requires CanStep(s, Attached) && !s.shim.closed
    ensures var h := s.shim;
            Step(s, Attached) == Sys(ToBrokerAll(Ready(h), h.queue), s.owed + Owes(Opening(h) + PassAll(h.queue)),
                                     s.wire + Opening(h) + PassAll(h.queue), LinkOf(s, Attached), s.past)
  {
    hide ToBrokerAll, Owes, Opening, Opened;
    assert s.past.answers + multiset{} == s.past.answers;
    assert s.wire + (Opening(s.shim) + PassAll(s.shim.queue)) == s.wire + Opening(s.shim) + PassAll(s.shim.queue);
  }

  lemma AttachedIs(s: Sys, id: string)
    requires Shape(s) && Once(s, id) && CanStep(s, Attached) && !s.shim.closed
    ensures var h, t := s.shim, Step(s, Attached).shim;
            && Passes(Ready(h), t, s.past, id, Requests(h.queue)[Client(id)])
            && (Client(id) in Step(s, Attached).owed <==> Client(id) in s.owed || ResendOwed(h, id) || Requests(h.queue)[Client(id)] > 0)
            && (forall r :: r in Step(s, Attached).owed && r.Replay? ==> r in s.owed || (h.initMsg.Some? && !h.resendInit && r.n == h.replays + 1))
    ensures Step(s, Attached).past == s.past
  {
    var h := s.shim;
    ReadyIs(h, s.past, id);
    AttachStep(s);
    hide Requests, Passes, Owes, ToBrokerAll, Step, Once, Ready;
    OpeningOwes(h);
    AllToBroker(Ready(h), h.queue, s.past, id);
    OwesParts(Opening(h), PassAll(h.queue));
    PassedOwes(h.queue, id);
  }

  lemma AttachKeeps(s: Sys, id: string)
    requires Shape(s) && Once(s, id) && CanStep(s, Attached)
    ensures Once(Step(s, Attached), id)
  {
    if s.shim.closed {
      OwesNothing();
      hide Requests, Owes;
    } else {
      AttachedIs(s, id);
      ReadyIs(s.shim, s.past, id);
      assert Requests([]) == multiset{};
      hide Step, Requests, Owes, Ready;
    }
  }

  lemma AttachShape(s: Sys)
    requires Shape(s) && OnlyTwice(s.past) && CanStep(s, Attached) && Once(s, "")
    ensures Shape(Step(s, Attached)) && OnlyTwice(Step(s, Attached).past)
  {
    if s.shim.closed {
      OwesNothing();
      hide Requests, Owes;
    } else {
      AttachedIs(s, "");
      ReadyIs(s.shim, s.past, "");
      hide Step, Requests, Owes, Ready;
    }
  }

  // ── no broker, replies, deaths, the client's end ──

  lemma NoBrokerKeeps(s: Sys, id: string)
    requires Shape(s) && Once(s, id) && CanStep(s, NoBroker)
    ensures Once(Step(s, NoBroker), id)
  {
    OwesNothing();
    assert Requests([]) == multiset{};
    hide Requests, Owes;
  }

  lemma NoBrokerShape(s: Sys)
    requires Shape(s) && OnlyTwice(s.past) && CanStep(s, NoBroker)
    ensures Shape(Step(s, NoBroker)) && OnlyTwice(Step(s, NoBroker).past)
  {
    OwesNothing();
    assert Requests([]) == multiset{};
    RequestsAreClients(s.shim.queue);
    hide Requests, Owes, OnlyTwice;
  }

  lemma ReplyKeeps(s: Sys, r: Id, id: string)
    requires Shape(s) && Once(s, id) && CanStep(s, BrokerReply(r))
    ensures Once(Step(s, BrokerReply(r)), id)
  {
    assert s.shim.queue == [];
    hide Owes, Shape;
  }

  lemma ReplyShape(s: Sys, r: Id)
    requires Shape(s) && OnlyTwice(s.past) && CanStep(s, BrokerReply(r))
    ensures Shape(Step(s, BrokerReply(r))) && OnlyTwice(Step(s, BrokerReply(r)).past)
  {
    hide Owes;
  }

  /** The newest initialize, once sent again, is the only one that can be in flight. */
  ghost predicate Newest(h: Shim, p: Past) {
    h.initMsg.Some? && h.initMsg.value.id in p.again ==> forall x :: IsInit(h, x) ==> x == h.initMsg.value.id
  }

  lemma AgainIsNew(s: Sys, id: string)
    requires Shape(s) && Once(s, id) && CanStep(s, BrokerClosed) && Newest(s.shim, s.past) && id in Again(s.shim)
    ensures id in s.past.asked && !Marked(s.past, id)
    ensures id !in s.past.again && id !in s.shim.inflight
  {
    hide Owes, Requests;
    var x :| IsInit(s.shim, x);
  }

  lemma ClosedKeeps(s: Sys, id: string)
    requires Shape(s) && Once(s, id) && CanStep(s, BrokerClosed) && Newest(s.shim, s.past)
    ensures Once(Step(s, BrokerClosed), id)
  {
    var h := s.shim;
    assert h.queue == [] && !h.resendInit && Requests([]) == multiset{};
    if !h.ending {
      if id in Again(h) { AgainIsNew(s, id); }
      assert id in Again(h) <==> InitLost(h) && h.initMsg.Some? && h.initMsg.value.id == id && id !in h.inflight;
      assert Client(id) in LostCalls(h) <==> id in h.inflight && !h.inflight[id].Initialize?;
      assert multiset(LostCalls(h))[Client(id)] == One(Client(id) in LostCalls(h));
      assert id in LostInits(h) <==> IsInit(h, id) && h.initMsg.value.id != id;
      if IsInit(h, id) { assert InitLost(h); }
      hide LostCalls, LostInits, Again, Owes, Shape, Requests, Newest, LinkOf;
    } else {
      hide LostCalls, Owes, Shape, Requests, Newest, LinkOf;
    }
  }

  lemma ClosedShape(s: Sys)
    requires Shape(s) && CanStep(s, BrokerClosed) && forall id :: Once(s, id)
    ensures Shape(Step(s, BrokerClosed))
  {
    if InitLost(s.shim) {
      var a :| IsInit(s.shim, a);
      assert Once(s, a);
    }
    forall id | id in LostInits(s.shim) + Again(s.shim) ensures id in s.past.asked {
      assert Once(s, id);
    }
    hide LostCalls, Owes, Once, LostInits, Again;
  }

  lemma ClosedTwice(s: Sys)
    requires Shape(s) && OnlyTwice(s.past) && CanStep(s, BrokerClosed) && forall id :: Once(s, id)
    ensures OnlyTwice(Step(s, BrokerClosed).past)
  {
    var h, p' := s.shim, Step(s, BrokerClosed).past;
    hide LostCalls, Owes;
    forall id | id in p'.lost || id in p'.again ensures TwoInits(p') {
      if id in LostInits(h) {
        assert Once(s, id);
        assert id in p'.inits && h.initMsg.value.id in p'.inits && id != h.initMsg.value.id;
      } else if id in Again(h) {
        var a :| IsInit(h, a);
        assert Once(s, a);
        assert a in p'.inits && id in p'.inits && a != id;
      } else {
        assert TwoInits(s.past);
      }
    }
  }

  lemma EndKeeps(s: Sys, e: Event, id: string)
    requires Shape(s) && OnlyTwice(s.past) && Once(s, id) && CanStep(s, e) && (e.ClientEnded? || e.GraceOver?)
    ensures Once(Step(s, e), id) && Shape(Step(s, e)) && OnlyTwice(Step(s, e).past)
  {
    OwesNothing();
    assert Requests([]) == multiset{};
    hide Requests, Owes;
  }

  lemma ShapeKept(s: Sys, e: Event)
    requires Inv(s) && CanStep(s, e)
    ensures Shape(Step(s, e)) && OnlyTwice(Step(s, e).past)
  {
    assert Once(s, "");
    hide Shape, OnlyTwice, Step, Once, CanStep;
    match e
    case ClientLine(line, big) => LineShape(s, line, big);
    case Attached => AttachShape(s);
    case NoBroker => NoBrokerShape(s);
    case BrokerReply(r) => ReplyShape(s, r);
    case BrokerClosed => ClosedShape(s); ClosedTwice(s);
    case ClientEnded => EndKeeps(s, e, "");
    case GraceOver => EndKeeps(s, e, "");
  }

  lemma NewestHolds(s: Sys)
    requires forall id :: Once(s, id)
    ensures Newest(s.shim, s.past)
  {
    forall x | IsInit(s.shim, x) && s.shim.initMsg.Some? && s.shim.initMsg.value.id in s.past.again
      ensures x == s.shim.initMsg.value.id
    {
      assert Once(s, x);
    }
  }

  lemma OnceKept(s: Sys, e: Event, id: string)
    requires Inv(s) && CanStep(s, e)
    ensures Once(Step(s, e), id)
  {
    assert Once(s, id);
    hide Shape, OnlyTwice, Step, Once, CanStep, Newest;
    match e
    case ClientLine(line, big) => LineKeeps(s, line, big, id);
    case Attached => AttachKeeps(s, id);
    case NoBroker => NoBrokerKeeps(s, id);
    case BrokerReply(r) => ReplyKeeps(s, r, id);
    case BrokerClosed =>
      NewestHolds(s);
      ClosedKeeps(s, id);
    case ClientEnded => EndKeeps(s, e, id);
    case GraceOver => EndKeeps(s, e, id);
  }

  lemma InvKept(s: Sys, e: Event)
    requires Inv(s) && CanStep(s, e)
    ensures Inv(Step(s, e))
  {
    ShapeKept(s, e);
    forall id ensures Once(Step(s, e), id) { OnceKept(s, e, id); }
    hide Shape, OnlyTwice, Step, Once, CanStep;
  }
}
