// SessionRegistry as the source runs it: its maps updated in place, one method per
// stretch of code between two awaits. Each method does what the step of the same
// kind in SessionSteps says.
module SessionRegistryClass {
  import opened Cookies
  import opened SessionSteps

  class SessionRegistry {
    var epoch: nat
    var conns: set<nat>
    var closedConns: set<nat>
    var tabs: map<Tab, nat>
    var entries: map<nat, Entry>
    var notices: map<Tab, string>
    // the mutex: the promise last chained, and what each creation waits for
    var lock: Lock
    // history: the creation whose body is under way, and those that asked after it
    ghost var body: Option<nat>
    ghost var waiting: seq<nat>
    // contexts close was called on
    var closed: seq<nat>

    ghost function State(): Registry
      reads this
    {
      Registry(epoch, conns, closedConns, tabs, entries, notices, lock, body, waiting)
    }

    constructor ()
      ensures State() == Registry(0, {}, {}, map[], map[], map[], UNLOCKED, None, []) && closed == []
    {
      epoch, conns, closedConns, tabs, entries, notices := 0, {}, {}, map[], map[], map[];
      lock, body, waiting, closed := UNLOCKED, None, [], [];
    }

    /** The agent will hear the first reason its tab was reset for. */
    method SetNotice(t: Tab, reason: string)
      modifies `notices
      ensures notices == Noticed(old(notices), t, reason)
    {
      if t !in notices { notices := notices[t := reason]; }
    }

    /** The tabs whose context is open. */
    method OpenNow() returns (open: set<Tab>)
      ensures open == OpenTabs(State())
    {
      open := {};
      var todo := tabs.Keys;
      while todo != {}
        invariant todo <= tabs.Keys && open == OpenTabs(State()) - todo
        decreases |todo|
      {
        var t :| t in todo;
        if tabs[t] in entries && entries[tabs[t]].ctx.Some? { open := open + {t}; }
        todo := todo - {t};
      }
    }

    /** Drop every open tab: its page died with the browser. Returns how many there were. */
    method Invalidate(reason: string) returns (n: nat)
      modifies `epoch, `tabs, `notices
      ensures State() == InvalidateAll(old(State()), reason) && n == |OpenTabs(old(State()))|
    {
      hide OpenTabs, InvalidateAll;
      ghost var was := State();
      var open := OpenNow();
      epoch := epoch + 1;
      n := |open|;
      tabs := tabs - open;
      NoticeAll(open, reason);
      IsInvalidated(was, State(), reason);
    }

    /** Each of these tabs has a notice now, its first one if it had one. */
    method NoticeAll(ts: set<Tab>, reason: string)
      modifies `notices
      ensures forall t :: t in notices <==> t in old(notices) || t in ts
      ensures forall t :: t in notices ==> notices[t] == if t in old(notices) then old(notices)[t] else reason
    {
      ghost var was := notices;
      var todo := ts;
      while todo != {}
        invariant todo <= ts && forall t :: t in notices <==> t in was || (t in ts && t !in todo)
        invariant forall t :: t in notices ==> notices[t] == if t in was then was[t] else reason
        decreases |todo|
      {
        var t :| t in todo;
        SetNotice(t, reason);
        todo := todo - {t};
      }
    }

    /** _serialized(): chain creation e behind the tail. */
    method Serialize(e: nat)
      modifies `lock, `waiting
      ensures State() == old(State()).(lock := Serialized(old(lock), e), waiting := old(waiting) + [e])
    {
      lock := lock.(turns := lock.turns[e := lock.tail], tail := lock.tail + 1);
      waiting := waiting + [e];
    }

    /** A creation begins for the tab; it is the one calls for that tab share from now on. */
    method OpenTab(t: Tab, e: nat)
      modifies `tabs, `entries, `lock, `waiting
      ensures State() == SessionSteps.Open(old(State()), t, e)
    {
      tabs := tabs[t := e];
      entries := entries[e := Entry(t, None, Waiting(1))];
      Serialize(e);
    }

    /** A tool call's tab: `down` is what the liveness check finds, `alive` whether the context's browser is connected.
        Returns the creation whose context the call gets, or None when its connection already left. */
    method CtxFor(t: Tab, down: bool, alive: bool, id: nat) returns (e: Option<nat>)
      requires id !in entries && forall x :: x in tabs ==> tabs[x] in entries
      modifies `conns, `epoch, `tabs, `notices, `entries, `lock, `waiting
      ensures State() == Call(old(State()), t, down, alive, id)
      ensures e == if t.conn in old(closedConns) then None else Some(tabs[t])
    {
      hide InvalidateAll;
      DownSpares(State(), t);
      if t.conn in closedConns { return None; }
      conns := conns + {t.conn};
      DownSpares(State(), t);
      if t in tabs && entries[tabs[t]].ctx.Some? && down { var _ := Invalidate("the browser went down"); }
      if t in tabs {
        if entries[tabs[t]].ctx.None? || alive { return Some(tabs[t]); }
        SetNotice(t, DISCONNECTED);
      }
      OpenTab(t, id);
      e := Some(id);
    }

    /** Close a context nobody wants. */
    method CloseQuietly(ctx: nat)
      modifies `closed
      ensures closed == old(closed) + [ctx]
    {
      closed := closed + [ctx];
    }

    /** One creation goes on; nothing else changes. */
    method SetPhase(e: nat, phase: Phase)
      requires e in entries
      modifies `entries
      ensures State() == With(old(State()), e, phase)
    {
      entries := entries[e := entries[e].(phase := phase)];
    }

    /** The top of the creation loop: the call fails if its tab is gone, else it asks for the mutex (again). */
    method TryAgain(e: nat, n: nat)
      requires e in entries
      modifies `entries, `lock, `waiting
      ensures State() == Attempt(old(State()), e, n)
    {
      if !(entries[e].tab in tabs && tabs[entries[e].tab] == e) {
        SetPhase(e, Failed);
        return;
      }
      SetPhase(e, Waiting(n));
      Serialize(e);
    }

    /** The promise creation e waited for is settled: its body runs, and no other does. */
    method StartBody(e: nat)
      requires Enabled(State(), BodyStart(e))
      modifies `entries, `body, `waiting
      ensures State() == BodyStarts(old(State()), e)
    {
      entries := entries[e := entries[e].(phase := Ensuring(entries[e].phase.n))];
      body := Some(e);
      waiting := Without(waiting, e);
    }

    /** The body ended: its result is out, and the mutex is passed on once its promise settles. */
    method BodyOver(e: nat, phase: Phase)
      requires Turned(State(), e)
      modifies `entries, `lock, `body
      ensures State() == BodyEnds(old(State()), e, phase)
    {
      SetPhase(e, phase);
      lock := lock.(ended := lock.ended + {lock.turns[e] + 1});
      body := None;
    }

    /** Brave is up, or the creation's body failed. The epoch is read after Brave came up, so a reset it waited out does not count. */
    method EnsureOver(e: nat, ok: bool)
      requires Enabled(State(), EnsureDone(e))
      modifies `entries, `lock, `body
      ensures State() == Next(old(State()), if ok then EnsureDone(e) else EnsureFails(e))
    {
      var n := entries[e].phase.n;
      if ok { SetPhase(e, Creating(n, epoch)); } else { BodyOver(e, BodyFailed(n, None)); }
    }

    /** Upstream created a context, which is in this creation's hands until it is stored or closed; or the body failed. */
    method CreateOver(e: nat, ctx: Option<nat>)
      requires Enabled(State(), CreateFails(e))
      modifies `entries, `lock, `body
      ensures State() == Next(old(State()), if ctx.Some? then CreateDone(e, ctx.value) else CreateFails(e))
    {
      var p := entries[e].phase;
      BodyOver(e, if ctx.Some? then Made(p.n, p.epoch, ctx.value) else BodyFailed(p.n, Some(p.epoch)));
    }

    /** The promise of a body that is over settles: the one chained behind it may start. */
    method Unlock(p: nat)
      requires Enabled(State(), Unlocked(p))
      modifies `lock
      ensures State() == Next(old(State()), Unlocked(p))
    {
      lock := lock.(ended := lock.ended - {p}, settled := lock.settled + {p});
    }

    /** The creation goes on: the caller gets the context, or it is closed because nobody wants it or a reset made it stale, or
        the call fails, or it tries again. */
    method GoOn(e: nat)
      requires Enabled(State(), Resumed(e))
      modifies `entries, `lock, `waiting, `closed
      ensures State() == Resume(old(State()), e)
      ensures closed == if State().entries[e].phase.Closing? then old(closed) + [old(entries)[e].phase.made] else old(closed)
    {
      var current := entries[e].tab in tabs && tabs[entries[e].tab] == e;
      match entries[e].phase {
        case BodyFailed(n, cut) =>
          if !current || cut.None? || cut == Some(epoch) || n >= MAX_ATTEMPTS {
            SetPhase(e, Failed);
          } else {
            TryAgain(e, n + 1);
          }
        case Made(n, born, ctx) =>
          if !current {
            CloseQuietly(ctx);
            SetPhase(e, Closing(n, true));
          } else if born == epoch {
            entries := entries[e := entries[e].(ctx := Some(ctx), phase := Ready)];
          } else {
            CloseQuietly(ctx);
            SetPhase(e, Closing(n, false));
          }
        case _ =>
      }
    }

    /** The unwanted context is closed: the call fails if its tab is gone or this was the last attempt, else it tries again. */
    method Closed(e: nat)
      requires Enabled(State(), CloseDone(e))
      modifies `entries, `lock, `waiting
      ensures State() == CloseOver(old(State()), e)
    {
      var n := entries[e].phase.n;
      if entries[e].phase.gone || n >= MAX_ATTEMPTS { SetPhase(e, Failed); } else { TryAgain(e, n + 1); }
    }

    /** Close one tab. Returns whether it existed. */
    method CloseTab(t: Tab) returns (existed: bool)
      requires forall x :: x in tabs ==> tabs[x] in entries
      modifies `tabs, `notices, `closed
      ensures State() == SessionSteps.CloseTab(old(State()), t)
      ensures existed <==> t in old(tabs) || t in old(notices)
      ensures closed == old(closed) + if t in OpenTabs(old(State())) then [old(entries[tabs[t]].ctx.value)] else []
    {
      existed := t in tabs || t in notices;
      notices := notices - {t};
      if t in tabs {
        var ctx := entries[tabs[t]].ctx;
        tabs := tabs - {t};
        if ctx.Some? { CloseQuietly(ctx.value); }
      } else {
        assert tabs == old(tabs) - {t};
      }
    }

    /** The reason of the one-shot notice for a reset tab, if it has one. */
    method TakeResetNotice(t: Tab) returns (reason: Option<string>)
      modifies `notices
      ensures reason == if t in old(notices) then Some(old(notices)[t]) else None
      ensures State() == Next(old(State()), NoticeTaken(t))
    {
      if t !in notices {
        assert notices - {t} == notices;
        return None;
      }
      reason := Some(notices[t]);
      notices := notices - {t};
    }

    /** The connection went away: close all its tabs and forget it. */
    method CloseConn(conn: nat)
      requires forall x :: x in tabs ==> tabs[x] in entries
      modifies `closedConns, `conns, `tabs, `notices, `closed
      ensures State() == SessionSteps.CloseConn(old(State()), conn)
      ensures old(closed) <= closed && |closed| == |old(closed)| + |TabsOf(old(State()), conn) * OpenTabs(old(State()))|
      ensures forall t :: t in TabsOf(old(State()), conn) * OpenTabs(old(State())) ==>
          old(entries[tabs[t]].ctx.value) in closed[|old(closed)|..]
    {
      hide OpenTabs, TabsOf;
      OpenTabsIgnore(State(), conn);
      closedConns := closedConns + {conn};
      conns := conns - {conn};
      DropNotices(conn);
      var gone := DropTabs(conn);
      closed := closed + gone;
      assert closed[|old(closed)|..] == gone;
    }

    /** The connection's notices go. */
    method DropNotices(conn: nat)
      modifies `notices
      ensures notices == old(notices) - NoticesOf(old(State()), conn)
    {
      ghost var was := notices;
      var todo := notices.Keys;
      while todo != {}
        invariant todo <= was.Keys
        invariant forall t :: t in notices <==> t in was && (t in todo || t.conn != conn)
        invariant forall t :: t in notices ==> notices[t] == was[t]
        decreases |todo|
      {
        var t :| t in todo;
        if t.conn == conn { notices := notices - {t}; }
        todo := todo - {t};
      }
    }

    /** Drop the connection's tabs; returns the contexts of the open ones, each once. */
    method DropTabs(conn: nat) returns (gone: seq<nat>)
      requires forall x :: x in tabs ==> tabs[x] in entries
      modifies `tabs
      ensures tabs == old(tabs) - TabsOf(old(State()), conn)
      ensures |gone| == |TabsOf(old(State()), conn) * OpenTabs(old(State()))|
      ensures forall t :: t in TabsOf(old(State()), conn) * OpenTabs(old(State())) ==> old(entries[tabs[t]].ctx.value) in gone
    {
      ghost var all := TabsOf(State(), conn) * OpenTabs(State());
      gone := [];
      var open := OpenNow();
      assert forall t :: t in open ==> t in tabs && entries[tabs[t]].ctx.Some? && (t in all <==> t.conn == conn);
      hide OpenTabs, TabsOf;
      var todo := open;
      ghost var done: set<Tab> := {};
      while todo != {}
        invariant todo <= open && done !! todo && |gone| == |done|
        invariant forall t :: t in all <==> t in done || (t in todo && t.conn == conn)
        invariant forall t :: t in done ==> t in tabs && entries[tabs[t]].ctx.Some? && entries[tabs[t]].ctx.value in gone
        modifies {}
        decreases |todo|
      {
        var t :| t in todo;
        if t.conn == conn {
          gone := gone + [entries[tabs[t]].ctx.value];
          done := done + {t};
        }
        todo := todo - {t};
      }
      assert done == all;
      tabs := OtherTabs(conn);
    }

    /** The tabs of the other connections. */
    method OtherTabs(conn: nat) returns (others: map<Tab, nat>)
      ensures others == tabs - TabsOf(State(), conn)
    {
      others := tabs;
      var todo := tabs.Keys;
      while todo != {}
        invariant todo <= tabs.Keys
        invariant forall t :: t in others <==> t in tabs && (t in todo || t.conn != conn)
        invariant forall t :: t in others ==> others[t] == tabs[t]
        decreases |todo|
      {
        var t :| t in todo;
        if t.conn == conn { others := others - {t}; }
        todo := todo - {t};
      }
    }
  }

  lemma IsInvalidated(s: Registry, s1: Registry, reason: string)
    requires s1 == s.(epoch := s.epoch + 1, tabs := s.tabs - OpenTabs(s), notices := s1.notices)
    requires forall t :: t in s1.notices <==> t in s.notices || t in OpenTabs(s)
    requires forall t :: t in s1.notices ==> s1.notices[t] == if t in s.notices then s.notices[t] else reason
    ensures s1 == InvalidateAll(s, reason)
  {
    hide OpenTabs;
    SameNotices(s1.notices, InvalidateAll(s, reason).notices);
  }

  lemma SameNotices(m: map<Tab, string>, n: map<Tab, string>)
    requires forall t :: t in m <==> t in n
    requires forall t :: t in m ==> m[t] == n[t]
    ensures m == n
  {
  }

  lemma OpenTabsIgnore(s: Registry, conn: nat)
    ensures forall s1: Registry :: s1.tabs == s.tabs && s1.entries == s.entries ==> OpenTabs(s1) == OpenTabs(s) && TabsOf(s1, conn) == TabsOf(s, conn)
  {
  }

  /** After a 'down' no tab is open, and tabs being created stay. */
  lemma DownSpares(s: Registry, t: Tab)
    ensures var s1 := InvalidateAll(s, "the browser went down");
            OpenTabs(s1) == {} && (t in OpenTabs(s) ==> t !in s1.tabs) && s1.entries == s.entries &&
                s1.closedConns == s.closedConns
  {
  }
}
