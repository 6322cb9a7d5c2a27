// What holds on every run of the registry: no stale context is stored, none leaks,
// one creation runs at a time and none takes more than three attempts.
module SessionInvariant {
  import opened Cookies
  import opened SessionSteps

  /** What became of a context upstream created. */
  datatype Fate = Fate(maker: nat, epoch: nat, closes: nat, died: bool)

  /** `past`: every context ever created. `lost`: the tabs whose context died since the agent last took a notice for them or closed them. */
  datatype Sys = Sys(reg: Registry, past: map<nat, Fate>, lost: set<Tab>)

  /** The contexts this step calls close on. */
  ghost function Closes(s: Registry, a: Step): set<nat>
    requires Enabled(s, a)
  {
    match a
    case Resumed(e) =>
      if s.entries[e].phase.Made? && Resume(s, e).entries[e].phase.Closing? then {s.entries[e].phase.made} else {}
    case TabClosed(t) => CtxsOf(s, {t})
    case ConnClosed(c) => CtxsOf(s, TabsOf(s, c))
    case _ => {}
  }

  /** The tabs this step drops because their browser is gone. */
  ghost function Drops(s: Registry, a: Step): set<Tab>
    requires Enabled(s, a)
  {
    match a
    case WentDown(_) => OpenTabs(s)
    case Called(t, down, alive, _) =>
      if t.conn in s.closedConns || t !in OpenTabs(s) then {} else if down then OpenTabs(s) else if !alive then {t} else {}
    case _ => {}
  }

  ghost function CtxsOf(s: Registry, ts: set<Tab>): set<nat> {
    set t | t in ts && t in OpenTabs(s) :: s.entries[s.tabs[t]].ctx.value
  }

  ghost function Aged(past: map<nat, Fate>, closed: set<nat>, died: set<nat>): map<nat, Fate> {
    MapOf(past.Keys, c requires c in past =>
      past[c].(closes := past[c].closes + (if c in closed then 1 else 0), died := past[c].died || c in died))
  }

  ghost predicate CanStep(s: Sys, a: Step) {
    Enabled(s.reg, a) && (a.CreateDone? ==> a.ctx !in s.past)
  }

  ghost function Step1(s: Sys, a: Step): Sys
    requires CanStep(s, a)
  {
    var past := Aged(s.past, Closes(s.reg, a), CtxsOf(s.reg, Drops(s.reg, a)));
    var settled := if a.NoticeTaken? || a.TabClosed? then {a.tab} else if a.ConnClosed? then (set t | t in s.lost &&
        t.conn == a.conn) else {};
    Sys(Next(s.reg, a),
        if a.CreateDone? then past[a.ctx := Fate(a.entry, s.reg.entries[a.entry].phase.epoch, 0, false)] else past,
        s.lost + Drops(s.reg, a) - settled)
  }

  // ── the invariant ──

  predicate InBodyPhase(p: Phase) {
    p.Ensuring? || p.Creating?
  }

  predicate Tried(p: Phase) {
    match p
    case Ready => true
    case Failed => true
    case _ => 1 <= p.n <= MAX_ATTEMPTS
  }

  ghost predicate EntryOk(s: Registry, past: map<nat, Fate>, e: nat)
    requires e in s.entries
  {
    var x := s.entries[e];
    && (x.phase.Waiting? <==> e in s.waiting)
    && (InBodyPhase(x.phase) <==> s.body == Some(e))
    && (x.phase.Ready? <==> x.ctx.Some?)
    && Tried(x.phase)
    && (x.phase.Creating? ==> x.phase.epoch <= s.epoch)
    && (x.phase.Made? ==> x.phase.made in past && past[x.phase.made].maker == e && past[x.phase.made].epoch == x.phase.epoch)
    && (x.ctx.Some? ==> x.ctx.value in past && past[x.ctx.value].maker == e)
  }

  ghost predicate Stored(s: Registry, c: nat, e: nat) {
    Current(s, e) && s.entries[e].ctx == Some(c)
  }

  predicate InHand(s: Registry, c: nat, e: nat) {
    e in s.entries && s.entries[e].phase.Made? && s.entries[e].phase.made == c
  }

  function One(b: bool): nat { if b then 1 else 0 }

  /** A context is stored, in the hands of the creation that asked for it, closed once, or died with its browser. */
  ghost predicate Accounted(s: Registry, past: map<nat, Fate>, c: nat)
    requires c in past
  {
    var f := past[c];
    && f.maker in s.entries && f.epoch <= s.epoch
    && One(Stored(s, c, f.maker)) + One(InHand(s, c, f.maker)) + f.closes + One(f.died) == 1
    && (Stored(s, c, f.maker) ==> f.epoch == s.epoch)
  }

  ghost predicate TabOk(s: Registry, t: Tab)
    requires t in s.tabs
  {
    s.tabs[t] in s.entries && s.entries[s.tabs[t]].tab == t && t.conn in s.conns && t.conn !in s.closedConns
  }

  /** The promise of the creation that has the mutex, or had it last: everyone waiting is chained behind it, in order. */
  function First(s: Registry): int {
    s.lock.tail - |s.waiting|
  }

  ghost predicate LockOk(s: Registry) {
    && First(s) >= 0
    && (forall i :: 0 <= i < |s.waiting| ==> s.waiting[i] in s.lock.turns && s.lock.turns[s.waiting[i]] == First(s) + i)
    && (s.body.Some? ==> s.body.value in s.lock.turns && s.lock.turns[s.body.value] == First(s) - 1)
    && (forall p :: p in s.lock.ended ==> p == First(s) && s.body.None? && p !in s.lock.settled)
    && (forall p :: p in s.lock.settled ==> p <= First(s) && (p == First(s) ==> s.body.None?))
    && (s.body.None? ==> First(s) in s.lock.ended || First(s) in s.lock.settled)
  }

  ghost predicate QueueOk(s: Registry) {
    && LockOk(s)
    && (s.body.Some? ==> s.body.value in s.entries)
    && (forall i :: 0 <= i < |s.waiting| ==> s.waiting[i] in s.entries)
    && (forall i, j :: 0 <= i < j < |s.waiting| ==> s.waiting[i] != s.waiting[j])
  }

  ghost predicate RegOk(s: Registry, past: map<nat, Fate>) {
    && QueueOk(s)
    && (forall e :: e in s.entries ==> EntryOk(s, past, e))
    && (forall t :: t in s.tabs ==> TabOk(s, t))
    && (forall c :: c in past ==> Accounted(s, past, c))
  }

  ghost predicate Inv(s: Sys) {
    RegOk(s.reg, s.past) && s.lost <= s.reg.notices.Keys
  }

  lemma NothingAges(past: map<nat, Fate>)
    ensures Aged(past, {}, {}) == past
  {
  }

  // ── one creation moves on ──

  /** Only creation e moved, and it stores no context. */
  ghost predicate Moved(s: Registry, s': Registry, e: nat, phase: Phase) {
    && e in s.entries && s.entries[e].ctx.None? && !phase.Ready?
    && s' == s.(entries := s.entries[e := s.entries[e].(phase := phase)], lock := s'.lock, body := s'.body,
              waiting := s'.waiting)
    && (s'.body == s.body || (s'.body == None && s.body == Some(e)) || (s'.body == Some(e) && s.body == None))
    && (forall x :: x != e ==> (x in s'.waiting <==> x in s.waiting))
  }

  /** Contexts but `but` are as they were. */
  ghost predicate SameFates(past: map<nat, Fate>, past': map<nat, Fate>, but: Option<nat>) {
    forall c :: (c in past ==> c in past' && past'[c].maker == past[c].maker && past'[c].epoch == past[c].epoch)
             && (Some(c) != but ==> (c in past' <==> c in past) && (c in past ==> past'[c] == past[c]))
  }

  lemma MovedOther(s: Registry, s': Registry, past: map<nat, Fate>, past': map<nat, Fate>, e: nat, phase: Phase,
      but: Option<nat>, x: nat)
    requires Moved(s, s', e, phase) && SameFates(past, past', but) && x in s.entries && x != e && EntryOk(s, past, x)
    ensures x in s'.entries && EntryOk(s', past', x)
  {
  }

  lemma MovedTab(s: Registry, s': Registry, e: nat, phase: Phase, t: Tab)
    requires Moved(s, s', e, phase) && t in s.tabs && TabOk(s, t)
    ensures TabOk(s', t)
  {
  }

  lemma MovedCtx(s: Registry, s': Registry, past: map<nat, Fate>, past': map<nat, Fate>, e: nat, phase: Phase,
      but: Option<nat>, c: nat)
    requires Moved(s, s', e, phase) && SameFates(past, past', but) && Some(c) != but && c in past && Accounted(s, past, c)
    requires InHand(s, c, e) == InHand(s', c, e)
    ensures c in past' && Accounted(s', past', c)
  {
  }

  lemma MovedKeeps(s: Registry, s': Registry, past: map<nat, Fate>, past': map<nat, Fate>, e: nat, phase: Phase, but: Option<nat>)
    requires RegOk(s, past) && Moved(s, s', e, phase) && SameFates(past, past', but)
    requires QueueOk(s') && EntryOk(s', past', e)
    requires forall c: nat :: Some(c) != but ==> InHand(s, c, e) == InHand(s', c, e)
    requires but.Some? && but.value in past' ==> Accounted(s', past', but.value)
    ensures RegOk(s', past')
  {
    forall x | x in s.entries && x != e ensures EntryOk(s', past', x) { MovedOther(s, s', past, past', e, phase, but, x); }
    forall t | t in s.tabs ensures TabOk(s', t) { MovedTab(s, s', e, phase, t); }
    forall c | c in past && Some(c) != but ensures Accounted(s', past', c) { MovedCtx(s, s', past, past', e, phase, but, c); }
    hide Accounted, QueueOk, EntryOk, TabOk;
  }

  lemma PhaseMoves(s: Registry, e: nat, phase: Phase, body: Option<nat>, lock: Lock, waiting: seq<nat>)
    requires e in s.entries && s.entries[e].ctx.None? && !phase.Ready?
    requires body == s.body || (body == None && s.body == Some(e)) || (body == Some(e) && s.body == None)
    requires forall x :: x != e ==> (x in waiting <==> x in s.waiting)
    ensures Moved(s, With(s, e, phase).(body := body, lock := lock, waiting := waiting), e, phase)
  {
  }

  /** Exclusion and order follow from the chain: the promise a creation waits for is settled only when no body is under way and it
      is the oldest of those waiting. */
  lemma TurnIsFirst(s: Registry, e: nat)
    requires LockOk(s) && e in s.waiting && s.lock.turns[e] in s.lock.settled
    ensures s.body.None? && s.waiting[0] == e && Without(s.waiting, e) == s.waiting[1..]
  {
  }

  lemma StartQueue(s: Registry, e: nat)
    requires QueueOk(s) && s.waiting != [] && s.waiting[0] == e && s.body.None? && e in s.entries && s.entries[e].phase.Waiting?
    requires Without(s.waiting, e) == s.waiting[1..] && s.lock.turns[e] in s.lock.settled
    ensures QueueOk(BodyStarts(s, e)) && e !in s.waiting[1..]
  {
    var w, s' := s.waiting, BodyStarts(s, e);
    assert First(s') == First(s) + 1 && s'.waiting == w[1..];
    forall i | 0 <= i < |s'.waiting| ensures s'.waiting[i] == w[i + 1] && s'.waiting[i] != e {}
    hide Without;
  }

  lemma BodyStartKeeps(s: Registry, past: map<nat, Fate>, e: nat)
    requires RegOk(s, past) && Enabled(s, BodyStart(e))
    ensures RegOk(BodyStarts(s, e), past)
  {
    assert EntryOk(s, past, e);
    TurnIsFirst(s, e);
    var w, s' := s.waiting, BodyStarts(s, e);
    assert w == [e] + s'.waiting;
    StartQueue(s, e);
    hide LockOk, Without;
    PhaseMoves(s, e, Ensuring(s.entries[e].phase.n), Some(e), s.lock, w[1..]);
    MovedKeeps(s, s', past, past, e, Ensuring(s.entries[e].phase.n), None);
  }

  lemma BodyKeeps(s: Registry, past: map<nat, Fate>, a: Step)
    requires RegOk(s, past) && Enabled(s, a) && (a.EnsureFails? || a.EnsureDone? || a.CreateFails?)
    ensures RegOk(Next(s, a), past)
  {
    var e, s' := a.entry, Next(s, a);
    assert EntryOk(s, past, e);
    PhaseMoves(s, e, s'.entries[e].phase, s'.body, s'.lock, s.waiting);
    MovedKeeps(s, s', past, past, e, s'.entries[e].phase, None);
  }

  lemma CreatedKeeps(s: Registry, past: map<nat, Fate>, e: nat, ctx: nat)
    requires RegOk(s, past) && Enabled(s, CreateDone(e, ctx)) && ctx !in past
    ensures RegOk(Next(s, CreateDone(e, ctx)), past[ctx := Fate(e, s.entries[e].phase.epoch, 0, false)])
  {
    var s' := Next(s, CreateDone(e, ctx));
    assert EntryOk(s, past, e);
    PhaseMoves(s, e, s'.entries[e].phase, None, s'.lock, s.waiting);
    MovedKeeps(s, s', past, past[ctx := Fate(e, s.entries[e].phase.epoch, 0, false)], e, s'.entries[e].phase, Some(ctx));
  }

  lemma UnlockKeeps(s: Registry, past: map<nat, Fate>, p: nat)
    requires RegOk(s, past) && Enabled(s, Unlocked(p))
    ensures RegOk(Next(s, Unlocked(p)), past)
  {
    var s' := Next(s, Unlocked(p));
    assert LockOk(s');
    hide LockOk;
    forall e | e in s.entries ensures EntryOk(s', past, e) { assert EntryOk(s, past, e); }
    forall t | t in s.tabs ensures TabOk(s', t) { assert TabOk(s, t); }
    forall c | c in past ensures Accounted(s', past, c) { assert Accounted(s, past, c); }
  }

  // ── the creation goes on after its body ──

  lemma AttemptQueue(s: Registry, e: nat, n: nat)
    requires QueueOk(s) && e in s.entries && e !in s.waiting && s.body != Some(e)
    ensures QueueOk(Attempt(s, e, n))
  {
    hide Current;
    var w := s.waiting + [e];
    assert forall i :: 0 <= i < |w| ==> w[i] == if i < |s.waiting| then s.waiting[i] else e;
  }

  lemma AttemptKeeps(s: Registry, past: map<nat, Fate>, past': map<nat, Fate>, e: nat, n: nat, but: Option<nat>)
    requires RegOk(s, past) && SameFates(past, past', but) && e in s.entries && n <= MAX_ATTEMPTS && 1 <= n
    requires var p := s.entries[e].phase; p.BodyFailed? || p.Closing?
    requires but.Some? && but.value in past' ==> Accounted(Attempt(s, e, n), past', but.value)
    ensures RegOk(Attempt(s, e, n), past')
  {
    var s' := Attempt(s, e, n);
    var phase := s'.entries[e].phase;
    assert EntryOk(s, past, e);
    AttemptQueue(s, e, n);
    hide QueueOk;
    assert forall x :: x in s.waiting + [e] <==> x in s.waiting || x == e;
    PhaseMoves(s, e, phase, s.body, s'.lock, s'.waiting);
    MovedKeeps(s, s', past, past', e, phase, but);
  }

  lemma RetryKeeps(s: Registry, past: map<nat, Fate>, e: nat, n: nat)
    requires RegOk(s, past) && e in s.entries && n < MAX_ATTEMPTS &&
        (s.entries[e].phase.BodyFailed? || s.entries[e].phase.Closing?)
    ensures RegOk(Attempt(s, e, n + 1), past)
  {
    assert SameFates(past, past, None);
    hide SameFates, RegOk, Attempt, Accounted;
    AttemptKeeps(s, past, past, e, n + 1, None);
  }

  lemma FailKeeps(s: Registry, past: map<nat, Fate>, e: nat)
    requires RegOk(s, past) && e in s.entries && (s.entries[e].phase.BodyFailed? || s.entries[e].phase.Closing?)
    ensures RegOk(With(s, e, Failed), past)
  {
    assert EntryOk(s, past, e);
    PhaseMoves(s, e, Failed, s.body, s.lock, s.waiting);
    MovedKeeps(s, With(s, e, Failed), past, past, e, Failed, None);
  }

  /** A context nobody wants is closed. */
  lemma UnwantedKeeps(s: Registry, past: map<nat, Fate>, e: nat, gone: bool)
    requires RegOk(s, past) && e in s.entries && s.entries[e].phase.Made?
    ensures var p := s.entries[e].phase; RegOk(With(s, e, Closing(p.n, gone)), Aged(past, {p.made}, {}))
  {
    var p := s.entries[e].phase;
    var s', past' := With(s, e, Closing(p.n, gone)), Aged(past, {p.made}, {});
    assert EntryOk(s, past, e) && Accounted(s, past, p.made);
    assert Accounted(s', past', p.made);
    PhaseMoves(s, e, Closing(p.n, gone), s.body, s.lock, s.waiting);
    MovedKeeps(s, s', past, past', e, Closing(p.n, gone), Some(p.made));
  }

  /** The context is stored: its creation's epoch is the current one. */
  lemma StoredKeeps(s: Registry, past: map<nat, Fate>, e: nat)
    requires RegOk(s, past) && e in s.entries && s.entries[e].phase.Made? && Current(s, e) && s.entries[e].phase.epoch == s.epoch
    ensures RegOk(Resume(s, e), past)
  {
    var s', ctx := Resume(s, e), s.entries[e].phase.made;
    assert EntryOk(s, past, e) && Accounted(s, past, ctx);
    forall x | x in s.entries && x != e ensures EntryOk(s', past, x) { assert EntryOk(s, past, x); }
    forall t | t in s.tabs ensures TabOk(s', t) { assert TabOk(s, t); }
    forall c | c in past && c != ctx ensures Accounted(s', past, c) {
      assert Accounted(s, past, c);
      assert past[c].maker != e ==> s'.entries[past[c].maker] == s.entries[past[c].maker];
    }
    hide EntryOk, TabOk, QueueOk;
  }

  /** Whichever way it ends, giving up or trying again. */
  lemma EndsKeep(s: Registry, past: map<nat, Fate>, e: nat)
    requires RegOk(s, past) && e in s.entries && (s.entries[e].phase.BodyFailed? || s.entries[e].phase.Closing?)
    ensures RegOk(With(s, e, Failed), past)
    ensures s.entries[e].phase.n < MAX_ATTEMPTS ==> RegOk(Attempt(s, e, s.entries[e].phase.n + 1), past)
  {
    hide *;
    FailKeeps(s, past, e);
    if s.entries[e].phase.n < MAX_ATTEMPTS { RetryKeeps(s, past, e, s.entries[e].phase.n); }
  }

  lemma CloseOverKeeps(s: Registry, past: map<nat, Fate>, e: nat)
    requires RegOk(s, past) && Enabled(s, CloseDone(e))
    ensures RegOk(CloseOver(s, e), past)
  {
    hide RegOk, Attempt, With;
    EndsKeep(s, past, e);
  }

  lemma ResumeFailedKeeps(s: Registry, past: map<nat, Fate>, e: nat)
    requires RegOk(s, past) && e in s.entries && s.entries[e].phase.BodyFailed?
    ensures RegOk(Resume(s, e), past)
  {
    hide RegOk, Attempt, With, Current;
    EndsKeep(s, past, e);
  }

  lemma ResumeKeeps(s: Registry, past: map<nat, Fate>, e: nat)
    requires RegOk(s, past) && Enabled(s, Resumed(e))
    ensures RegOk(Resume(s, e), Aged(past, Closes(s, Resumed(e)), {}))
  {
    NothingAges(past);
    hide RegOk, Attempt, Aged, CtxsOf;
    if s.entries[e].phase.BodyFailed? {
      ResumeFailedKeeps(s, past, e);
    } else if !Current(s, e) {
      UnwantedKeeps(s, past, e, true);
    } else if s.entries[e].phase.epoch == s.epoch {
      StoredKeeps(s, past, e);
    } else {
      UnwantedKeeps(s, past, e, false);
    }
  }

  // ── tabs go ──

  /** Only tabs went, and what says which connections are open; every dropped context was closed or died. */
  ghost predicate Dropped(s: Registry, s': Registry, gone: set<Tab>) {
    && s' == s.(tabs := s.tabs - gone, epoch := s'.epoch, notices := s'.notices, conns := s'.conns, closedConns := s'.closedConns)
    && s.epoch <= s'.epoch && (s'.epoch != s.epoch ==> OpenTabs(s) <= gone)
    && (forall t :: t in s.tabs && t !in gone && t.conn in s.conns && t.conn !in s.closedConns ==> t.conn in s'.conns && t.conn !in s'.closedConns)
  }

  lemma DroppedCtx(s: Registry, s': Registry, past: map<nat, Fate>, gone: set<Tab>, closed: set<nat>, died: set<nat>, c: nat)
    requires RegOk(s, past) && Dropped(s, s', gone) && c in past
    requires closed + died == CtxsOf(s, gone) && closed !! died
    ensures Accounted(s', Aged(past, closed, died), c)
  {
    var e := past[c].maker;
    assert Accounted(s, past, c);
    if c in CtxsOf(s, gone) {
      var t :| t in gone && t in OpenTabs(s) && s.entries[s.tabs[t]].ctx.value == c;
      assert EntryOk(s, past, s.tabs[t]) && TabOk(s, t);
      assert Stored(s, c, e);
    } else if Stored(s, c, e) {
      var t := s.entries[e].tab;
      assert t in OpenTabs(s) && s.entries[s.tabs[t]].ctx.value == c;
      assert t !in gone;
    }
    hide RegOk, EntryOk, TabOk, CtxsOf, OpenTabs;
  }

  lemma DroppedKeeps(s: Registry, s': Registry, past: map<nat, Fate>, gone: set<Tab>, closed: set<nat>, died: set<nat>)
    requires RegOk(s, past) && Dropped(s, s', gone)
    requires closed + died == CtxsOf(s, gone) && closed !! died
    ensures RegOk(s', Aged(past, closed, died))
  {
    forall e | e in s.entries ensures EntryOk(s', Aged(past, closed, died), e) { assert EntryOk(s, past, e); }
    forall t | t in s'.tabs ensures TabOk(s', t) { assert TabOk(s, t); }
    forall c | c in past ensures Accounted(s', Aged(past, closed, died), c) { DroppedCtx(s, s', past, gone, closed, died, c); }
    hide EntryOk, TabOk, Accounted, CtxsOf, OpenTabs;
  }

  lemma DownKeeps(s: Registry, past: map<nat, Fate>, reason: string)
    requires RegOk(s, past)
    ensures RegOk(InvalidateAll(s, reason), Aged(past, {}, CtxsOf(s, OpenTabs(s))))
  {
    hide OpenTabs, RegOk, CtxsOf;
    DroppedKeeps(s, InvalidateAll(s, reason), past, OpenTabs(s), {}, CtxsOf(s, OpenTabs(s)));
  }

  lemma CloseTabKeeps(s: Registry, past: map<nat, Fate>, t: Tab)
    requires RegOk(s, past)
    ensures RegOk(CloseTab(s, t), Aged(past, CtxsOf(s, {t}), {}))
  {
    hide OpenTabs, RegOk, CtxsOf;
    DroppedKeeps(s, CloseTab(s, t), past, {t}, CtxsOf(s, {t}), {});
  }

  lemma CloseConnKeeps(s: Registry, past: map<nat, Fate>, conn: nat)
    requires RegOk(s, past)
    ensures RegOk(CloseConn(s, conn), Aged(past, CtxsOf(s, TabsOf(s, conn)), {}))
  {
    hide OpenTabs, RegOk, CtxsOf;
    DroppedKeeps(s, CloseConn(s, conn), past, TabsOf(s, conn), CtxsOf(s, TabsOf(s, conn)), {});
  }

  lemma UncacheKeeps(s: Registry, past: map<nat, Fate>, e: nat)
    requires RegOk(s, past) && e in s.entries && s.entries[e].phase.Failed?
    ensures RegOk(Uncache(s, e), past)
  {
    assert EntryOk(s, past, e);
    if Current(s, e) {
      var t := s.entries[e].tab;
      assert CtxsOf(s, {t}) == {};
      NothingAges(past);
      hide OpenTabs, RegOk, CtxsOf, Aged, EntryOk;
      DroppedKeeps(s, Uncache(s, e), past, {t}, {}, {});
    }
  }

  lemma NoticesKeep(s: Registry, past: map<nat, Fate>, notices: map<Tab, string>, conns: set<nat>)
    requires RegOk(s, past) && s.conns <= conns
    ensures RegOk(s.(notices := notices, conns := conns), past)
  {
    assert CtxsOf(s, {}) == {};
    NothingAges(past);
    hide OpenTabs, RegOk, CtxsOf, Aged;
    assert s.tabs - {} == s.tabs;
    DroppedKeeps(s, s.(notices := notices, conns := conns), past, {}, {}, {});
  }

  // ── a call opens a tab ──

  lemma OpenCtx(s: Registry, past: map<nat, Fate>, t: Tab, e: nat, c: nat)
    requires c in past && Accounted(s, past, c) && e !in s.entries && t !in s.tabs
    ensures Accounted(Open(s, t, e), past, c)
  {
    var m, s' := past[c].maker, Open(s, t, e);
    assert m != e && s'.entries[m] == s.entries[m];
    assert Current(s', m) == Current(s, m);
    hide Open;
  }

  lemma OpenEntry(s: Registry, past: map<nat, Fate>, t: Tab, e: nat, x: nat)
    requires QueueOk(s) && e !in s.entries && x in s.entries && EntryOk(s, past, x)
    ensures EntryOk(Open(s, t, e), past, x)
  {
    assert x in s.waiting + [e] <==> x in s.waiting;
  }

  lemma OpenQueue(s: Registry, t: Tab, e: nat)
    requires QueueOk(s) && e !in s.entries
    ensures QueueOk(Open(s, t, e)) && e in Open(s, t, e).waiting && s.body != Some(e)
  {
  }

  lemma OpenKeeps(s: Registry, past: map<nat, Fate>, t: Tab, e: nat)
    requires RegOk(s, past) && e !in s.entries && t.conn in s.conns && t.conn !in s.closedConns && t !in s.tabs
    ensures RegOk(Open(s, t, e), past)
  {
    var s' := Open(s, t, e);
    OpenQueue(s, t, e);
    assert EntryOk(s', past, e);
    forall x | x in s.entries ensures EntryOk(s', past, x) { OpenEntry(s, past, t, e, x); }
    forall x | x in s'.tabs ensures TabOk(s', x) { assert x in s.tabs ==> TabOk(s, x); }
    forall c | c in past ensures Accounted(s', past, c) { OpenCtx(s, past, t, e, c); }
    hide TabOk, Accounted, EntryOk, QueueOk;
  }

  lemma ReopenKeeps(s: Registry, past: map<nat, Fate>, t: Tab, e: nat)
    requires RegOk(s, past) && e !in s.entries && t.conn in s.conns && t.conn !in s.closedConns && t in OpenTabs(s)
    ensures RegOk(Open(s.(notices := Noticed(s.notices, t, DISCONNECTED)), t, e), Aged(past, {}, CtxsOf(s, {t})))
  {
    var s1 := s.(notices := Noticed(s.notices, t, DISCONNECTED));
    var s2 := s1.(tabs := s.tabs - {t});
    hide RegOk, CtxsOf, OpenTabs, Aged;
    DroppedKeeps(s, s2, past, {t}, {}, CtxsOf(s, {t}));
    OpenKeeps(s2, Aged(past, {}, CtxsOf(s, {t})), t, e);
    assert s2.tabs[t := e] == s.tabs[t := e];
  }

  lemma CallKeeps(s: Registry, past: map<nat, Fate>, a: Step)
    requires RegOk(s, past) && a.Called? && Enabled(s, a)
    ensures RegOk(Next(s, a), Aged(past, {}, CtxsOf(s, Drops(s, a))))
  {
    var t, e := a.tab, a.entry;
    if t.conn in s.closedConns {
      assert CtxsOf(s, {}) == {};
      NothingAges(past);
    } else {
      var s0 := s.(conns := s.conns + {t.conn});
      NoticesKeep(s, past, s.notices, s.conns + {t.conn});
      assert OpenTabs(s0) == OpenTabs(s);
      assert CtxsOf(s0, OpenTabs(s)) == CtxsOf(s, OpenTabs(s)) && CtxsOf(s0, {t}) == CtxsOf(s, {t}) && CtxsOf(s, {}) == {};
      CalledKeeps(s0, past, t, a.down, a.alive, e);
      hide RegOk, CtxsOf, OpenTabs, Aged;
    }
  }

  /** What a call does once its connection is known to be open. */
  lemma CalledKeeps(s: Registry, past: map<nat, Fate>, t: Tab, down: bool, alive: bool, e: nat)
    requires RegOk(s, past) && t.conn in s.conns && t.conn !in s.closedConns && e !in s.entries
    ensures var drops := if t !in OpenTabs(s) then {} else if down then OpenTabs(s) else if !alive then {t} else {};
            RegOk(Call(s, t, down, alive, e), Aged(past, {}, CtxsOf(s, drops)))
  {
    assert s.(conns := s.conns + {t.conn}) == s;
    assert CtxsOf(s, {}) == {};
    NothingAges(past);
    if t in OpenTabs(s) && down {
      var s1 := InvalidateAll(s, "the browser went down");
      DownKeeps(s, past, "the browser went down");
      assert t !in s1.tabs;
      hide RegOk, CtxsOf, Aged, OpenTabs;
      OpenKeeps(s1, Aged(past, {}, CtxsOf(s, OpenTabs(s))), t, e);
    } else if t !in s.tabs {
      assert t !in OpenTabs(s);
      hide RegOk, CtxsOf, Aged, OpenTabs;
      OpenKeeps(s, past, t, e);
    } else if t in OpenTabs(s) && !alive {
      hide RegOk, CtxsOf, Aged, OpenTabs;
      ReopenKeeps(s, past, t, e);
    }
  }

  // ── every step ──

  lemma RegKept(s: Sys, a: Step)
    requires Inv(s) && CanStep(s, a)
    ensures RegOk(Step1(s, a).reg, Step1(s, a).past)
  {
    var r, past := s.reg, s.past;
    NothingAges(past);
    assert CtxsOf(r, {}) == {};
    hide RegOk, Aged, CtxsOf, OpenTabs;
    match a
    case Called(_, _, _, _) => CallKeeps(r, past, a);
    case BodyStart(e) => BodyStartKeeps(r, past, e);
    case EnsureFails(_) => BodyKeeps(r, past, a);
    case EnsureDone(_) => BodyKeeps(r, past, a);
    case CreateFails(_) => BodyKeeps(r, past, a);
    case CreateDone(e, ctx) => CreatedKeeps(r, past, e, ctx);
    case Unlocked(p) => UnlockKeeps(r, past, p);
    case Resumed(e) => ResumeKeeps(r, past, e);
    case CloseDone(e) => CloseOverKeeps(r, past, e);
    case Uncached(e) => UncacheKeeps(r, past, e);
    case TabClosed(t) => CloseTabKeeps(r, past, t);
    case ConnClosed(c) => CloseConnKeeps(r, past, c);
    case WentDown(reason) => DownKeeps(r, past, reason);
    case NotedReset(t, reason) => NoticesKeep(r, past, Noticed(r.notices, t, reason), r.conns);
    case NoticeTaken(t) => NoticesKeep(r, past, r.notices - {t}, r.conns);
  }

  lemma NoticesOwed(s: Sys, a: Step)
    requires s.lost <= s.reg.notices.Keys && CanStep(s, a)
    ensures Step1(s, a).lost <= Step1(s, a).reg.notices.Keys
  {
  }

  lemma InvKept(s: Sys, a: Step)
    requires Inv(s) && CanStep(s, a)
    ensures Inv(Step1(s, a))
  {
    RegKept(s, a);
    NoticesOwed(s, a);
    hide RegOk, Next;
  }
}
