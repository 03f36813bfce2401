/** Handler by handler, and then over whole runs: the invariant of `ChannelSafety` is kept. */
module ChannelRuns {
  import opened Octets
  import opened SessionModel
  import opened TimerModel
  import opened ChannelModel
  import opened ChannelSafety

  /**
   When an event can happen: calls are new, library ids are fresh, the watch is set, the timer is
   the next due one.
   */
  ghost predicate Enabled(ch: Channel, e: Event, maxSkew: nat) {
    match e
    case NewCall(c, _, _, id, _) => c !in Known(ch) && FreshId(ch, id)
    case ShutdownOp(_) => true
    case Connect(_, _, _, _, skew, ids, _) => ch.watch == WatchConnect && DistinctIds(ids) && skew <= maxSkew
    case Traffic(_, _, _, skew) => ch.watch == WatchSession && skew <= maxSkew
    case TimerFires(id, now, _, _, skew) => IsLeast(ch.timers, id) && IsDue(ch.timers, id, now) && skew <= maxSkew
  }

  function CallsOf(e: Event): set<CallId> { if e.NewCall? then {e.call} else {} }

  // ------------------------------------------------------------ new calls

  /** The keepalive timer stays right as long as neither it nor the session's clock changes. */
  lemma ArmedStays(o: Config, ch: Channel, r: Channel, maxSkew: nat)
    requires Armed(o, ch, maxSkew) && FlushKeeps(ch, r) && ch.session.Some?
    ensures Armed(o, r, maxSkew)
  {
  }

  lemma QueueMoves(ch: Channel, c: CallId)
    requires Core(ch) && c !in Known(ch) && (ch.phase.Idle? || ch.phase.Connecting?)
    ensures Moves(ch, ch.(pending := ch.pending + [c]), {c})
  {
    var r := ch.(pending := ch.pending + [c]);
    assert Elements(r.pending) == Elements(ch.pending) + {c};
    assert forall i :: 0 <= i < |ch.pending| ==> ch.pending[i] in Elements(ch.pending);
  }

  lemma ConnectingMoves(o: Config, ch: Channel, now: int, refusal: Option<string>)
    requires Core(ch) && ch.phase.Idle? && ch.timers.pending == map[] && ch.pending != []
    ensures var r := StartConnecting(o, ch, now, refusal);
            && Moves(ch, r, {})
            && (r.phase.Failed? || (r.phase.Connecting? && r.pending == ch.pending && r.connectTimer != 0
                                    && r.keepaliveTimer == 0 && r.watch == WatchConnect))
  {
    hide OnePlace, Known;
    var m := ch.(phase := Connecting, connectTimer := ch.timers.nextId,
                 timers := Added(ch.timers, now + o.connectTimeout, ConnectTimeout));
    assert ch.connectTimer == 0 && ch.keepaliveTimer == 0 by {
      assert ch.timers.pending.Keys == {};
      assert ch.connectTimer in {ch.connectTimer, ch.keepaliveTimer}
          && ch.keepaliveTimer in {ch.connectTimer, ch.keepaliveTimer};
    }
    OnlyControlChanged(ch, m);
    OnlyControlChanged(ch, m.(watch := WatchConnect));
    assert Timed(m);
    if refusal.Some? {
      TearDownMoves(m, Own(SocketFailed(refusal.value)));
      Then(ch, m, TearDown(m, Own(SocketFailed(refusal.value))), {});
    }
  }

  /** Calls are untouched when only phase, timers and watch change. */
  lemma OnlyControlChanged(ch: Channel, r: Channel)
    requires r.pending == ch.pending && r.active == ch.active && r.results == ch.results
    ensures Known(r) == Known(ch) && (OnePlace(ch) ==> OnePlace(r)) && Grows(ch.results, r.results)
  {
  }

  lemma NewCallKeeps(o: Config, ch: Channel, e: Event, maxSkew: nat)
    requires Inv(o, ch, maxSkew) && e.NewCall? && Enabled(ch, e, maxSkew)
    ensures Moves(ch, HandleNewCall(o, ch, e), {e.call}) && Inv(o, HandleNewCall(o, ch, e), maxSkew)
  {
    hide Core, Moves, Known, FailCall, StartConnecting, SubmitCall, Flush;
    var r := HandleNewCall(o, ch, e);
    match ch.phase
    case ShutDown =>
      FailCallMoves(ch, e.call, ChannelShutDown);
      CoreOf(ch, r);
    case Failed =>
      FailCallMoves(ch, e.call, ch.detail);
      CoreOf(ch, r);
    case Idle =>
      var m := ch.(pending := ch.pending + [e.call]);
      QueueMoves(ch, e.call);
      CoreOf(ch, m);
      ConnectingMoves(o, m, e.now, e.refusal);
      Then(ch, m, r, {e.call});
      CoreOf(ch, r);
    case Connecting =>
      QueueMoves(ch, e.call);
      CoreOf(ch, r);
    case Ready =>
      var m := SubmitCall(ch, e.call, e.id);
      SubmitMoves(ch, e.call, e.id);
      CoreOf(ch, m);
      ReadyHasSession(ch);
      FlushMoves(m, e.flush);
      Then(ch, m, r, {e.call});
      CoreOf(ch, r);
      if r.phase.Ready? { ArmedStays(o, ch, r, maxSkew); }
  }

  // ------------------------------------------------------------ connecting

  lemma ConnectTimerOff(ch: Channel)
    requires Core(ch) && ch.phase.Connecting?
    ensures var m := ch.(timers := Cancelled(ch.timers, ch.connectTimer), connectTimer := 0);
            Moves(ch, m, {})
  {
    hide Linked, OnePlace, Known;
    var m := ch.(timers := Cancelled(ch.timers, ch.connectTimer), connectTimer := 0);
    OnlyControlChanged(ch, m);
    assert m.timers.pending.Keys == ch.timers.pending.Keys - {ch.connectTimer};
  }

  lemma BringUp(ch: Channel, now: int)
    requires Core(ch) && ch.phase.Connecting?
    ensures var r := ch.(session := Some(SessionModel.Init(now)), watch := WatchSession, phase := Ready);
            Moves(ch, r, {})
  {
    hide OnePlace, Known, Timed;
    var r := ch.(session := Some(SessionModel.Init(now)), watch := WatchSession, phase := Ready);
    OnlyControlChanged(ch, r);
    OnlyTimersSame(ch, r);
    assert Calls(SessionModel.Init(now)) == {};
  }

  lemma NoStreams(ch: Channel)
    requires Core(ch) && ch.phase.Ready? && ch.active == {}
    ensures ch.session.value.streams == map[]
  {
    hide OnePlace, Timed, Calls;
    var s := ch.session.value;
    forall id
      ensures id !in s.streams
    {
      if id in s.streams { SomeCall(s, id); }
    }
  }

  lemma SomeCall(s: Session, id: int)
    requires id in s.streams
    ensures Calls(s) != {}
  {
    assert s.streams[id] in Calls(s);
  }

  /** Taking the queue out: its calls are unknown to what remains, and nothing else changes. */
  lemma Unqueue(ch: Channel)
    requires Core(ch) && ch.phase.Ready?
    ensures var z := ch.(pending := []);
            && Core(z) && NoRepeats(ch.pending) && (forall c :: c in ch.pending ==> c !in Known(z))
            && Known(z) + Elements(ch.pending) == Known(ch)
  {
    hide Linked, Timed;
    var z := ch.(pending := []);
    OnlyTimersSame(ch, z);
    assert Elements([]) == {};
    assert forall c :: c in ch.pending ==> c in Elements(ch.pending);
  }

  lemma Requeued(ch: Channel, r: Channel)
    requires Core(ch) && ch.phase.Ready? && Moves(ch.(pending := []), r, Elements(ch.pending))
    requires Known(ch.(pending := [])) + Elements(ch.pending) == Known(ch)
    ensures Moves(ch, r, {})
  {
    hide Core;
  }

  /** Everything between the handshake and the first settled Ready state. */
  lemma SessionUpKeeps(o: Config, ch: Channel, e: Event, maxSkew: nat)
    requires Core(ch) && ch.phase.Connecting? && ch.connectTimer == 0
    requires e.Connect? && DistinctIds(e.ids) && e.skew <= maxSkew
    ensures Moves(ch, SessionUp(o, ch, e), {}) && Inv(o, SessionUp(o, ch, e), maxSkew)
  {
    hide Core, Moves, Known, Flush, Rearm, SubmitAll;
    var x := ch.(session := Some(SessionModel.Init(e.now)), watch := WatchSession, phase := Ready);
    assert x.active == {} by { IdleFacts(ch); }
    BringUp(ch, e.now);
    CoreOf(ch, x);
    var y := Flush(x, e.preface);
    FlushMoves(x, e.preface);
    Then(ch, x, y, {});
    CoreOf(ch, y);
    var up := Rearm(o, y, e.skew);
    RearmMoves(o, y, e.skew, maxSkew);
    Then(ch, y, up, {});
    CoreOf(ch, up);
    if up.phase.Ready? {
      QueueSubmitted(o, ch, up, e, maxSkew);
    } else {
      OverFacts(up);
      assert up.(pending := []) == up;
      NothingToSubmit(up, e.ids);
    }
  }

  lemma NothingToSubmit(ch: Channel, ids: seq<int>)
    ensures SubmitAll(ch, [], ids) == ch
  {
  }

  lemma IdleFacts(ch: Channel)
    requires Core(ch) && ch.phase.Connecting?
    ensures ch.session.None? && ch.active == {}
  {
  }

  lemma OverFacts(ch: Channel)
    requires Core(ch) && ch.phase.Over()
    ensures Released(ch)
  {
  }

  lemma QueueSubmitted(o: Config, ch: Channel, up: Channel, e: Event, maxSkew: nat)
    requires Moves(ch, up, {}) && up.phase.Ready? && up.active == {} && Armed(o, up, maxSkew)
    requires up.connectTimer == 0 && up.watch == WatchSession
    requires e.Connect? && DistinctIds(e.ids)
    ensures var m := SubmitAll(up.(pending := []), up.pending, e.ids);
            var r := if m.phase == Ready then Flush(m, e.flush) else m;
            Moves(ch, r, {}) && Inv(o, r, maxSkew)
  {
    hide Core, Moves, Known, Flush, SubmitAll;
    CoreOf(ch, up);
    ReadyHasSession(up);
    NoStreams(up);
    Unqueue(up);
    var m := SubmitAll(up.(pending := []), up.pending, e.ids);
    SubmitAllMoves(up.(pending := []), up.pending, e.ids);
    Requeued(up, m);
    CoreOf(up, m);
    ReadyHasSession(m);
    Then(ch, up, m, {});
    var r := Flush(m, e.flush);
    FlushMoves(m, e.flush);
    Then(ch, m, r, {});
    CoreOf(ch, r);
    if r.phase.Ready? {
      ArmedStays(o, up.(pending := []), m, maxSkew);
      ArmedStays(o, m, r, maxSkew);
    }
  }

  lemma ConnectKeeps(o: Config, ch: Channel, e: Event, maxSkew: nat)
    requires Inv(o, ch, maxSkew) && e.Connect? && Enabled(ch, e, maxSkew)
    ensures Moves(ch, OnConnectProgress(o, ch, e), {}) && Inv(o, OnConnectProgress(o, ch, e), maxSkew)
  {
    hide Moves, Known, SessionUp, TearDown, OnePlace, Timed, Linked;
    var m := ch.(timers := Cancelled(ch.timers, ch.connectTimer), connectTimer := 0);
    var r := OnConnectProgress(o, ch, e);
    ConnectTimerOff(ch);
    CoreOf(ch, m);
    match e.outcome
    case InProgress => Stays(ch);
    case ConnectError(text) =>
      TearDownMoves(m, Own(SocketFailed(text)));
      Then(ch, m, r, {});
      CoreOf(ch, r);
    case Connected =>
      if e.setupFailure.Some? {
        TearDownMoves(m, OfSession(Library(e.setupFailure.value)));
        Then(ch, m, r, {});
        CoreOf(ch, r);
      } else {
        SessionUpKeeps(o, m, e, maxSkew);
        Then(ch, m, r, {});
      }
  }

  // ------------------------------------------------------------ traffic and timers

  lemma SocketMeansReady(o: Config, ch: Channel, maxSkew: nat)
    requires Inv(o, ch, maxSkew) && ch.watch == WatchSession
    ensures ch.phase.Ready?
  {
    hide OnePlace, Timed, Linked, Armed;
  }

  lemma TrafficKeeps(o: Config, ch: Channel, e: Event, maxSkew: nat)
    requires Inv(o, ch, maxSkew) && e.Traffic? && Enabled(ch, e, maxSkew)
    ensures Moves(ch, OnSocketReady(o, ch, e), {}) && Inv(o, OnSocketReady(o, ch, e), maxSkew)
  {
    hide Core, Moves, Known, DrainSocket, Flush, Rearm;
    SocketMeansReady(o, ch, maxSkew);
    var m := if e.readable then DrainSocket(ch, e.input) else ch;
    if e.readable { DrainMoves(ch, e.input); } else { Stays(ch); }
    CoreOf(ch, m);
    if m.phase.Ready? {
      var n := Flush(m, e.flush);
      FlushMoves(m, e.flush);
      Then(ch, m, n, {});
      CoreOf(ch, n);
      if n.phase.Ready? {
        var r := Rearm(o, n, e.skew);
        RearmMoves(o, n, e.skew, maxSkew);
        Then(ch, n, r, {});
        CoreOf(ch, r);
      }
    }
  }

  /** A fired timer is one of the two the channel remembers; forgetting it keeps the books straight. */
  lemma TimerTaken(ch: Channel, id: nat)
    requires Core(ch) && id in ch.timers.pending
    ensures id == ch.connectTimer || id == ch.keepaliveTimer
    ensures ch.timers.pending[id].callback == ConnectTimeout ==>
              id == ch.connectTimer && Moves(ch, ch.(timers := Removed(ch.timers, id), connectTimer := 0), {})
    ensures ch.timers.pending[id].callback == KeepaliveCheck ==>
              id == ch.keepaliveTimer && Moves(ch, ch.(timers := Removed(ch.timers, id), keepaliveTimer := 0), {})
  {
    hide Linked, OnePlace, Known;
    assert Removed(ch.timers, id).pending.Keys == ch.timers.pending.Keys - {id};
    OnlyControlChanged(ch, ch.(timers := Removed(ch.timers, id), connectTimer := 0));
    OnlyControlChanged(ch, ch.(timers := Removed(ch.timers, id), keepaliveTimer := 0));
  }

  lemma CheckedMoves(o: Config, ch: Channel, now: int, refusal: Option<string>)
    requires Core(ch) && ch.phase.Ready?
    ensures Moves(ch, ch.(session := Some(Check(o.keepalive, ch.session.value, now, refusal).0)), {})
  {
    LinkFacts(ch, 0);
    hide Core, Moves, Check, Agrees, Bounded, Calls;
    CheckFacts(o.keepalive, ch.session.value, now, refusal);
    SwapSession(ch, Check(o.keepalive, ch.session.value, now, refusal).0);
  }

  lemma CheckFacts(o: Options, s: Session, now: int, refusal: Option<string>)
    requires Agrees(s) && Bounded(s)
    ensures var r := Check(o, s, now, refusal).0;
            r.live == s.live && Agrees(r) && Bounded(r) && Calls(r) == Calls(s)
  {
    hide Agrees, Calls;
    SameTable(s, Check(o, s, now, refusal).0);
  }

  /** The channel after the keepalive machine was evaluated. */
  function Evaluated(o: Config, ch: Channel, e: Event): (m: Channel)
    requires e.TimerFires? && ch.session.Some?
  {
    ch.(session := Some(Check(o.keepalive, ch.session.value, e.now, e.refusal).0))
  }

  /** The keepalive callback, step by step. */
  lemma KeepaliveSteps(o: Config, ch: Channel, e: Event)
    requires Core(ch) && ch.phase.Ready? && e.TimerFires?
    ensures ch.session.Some? && ch.session.value.live
    ensures var m := Evaluated(o, ch, e);
            && Moves(ch, m, {}) && Core(m) && m.phase.Ready?
            && OnKeepalive(o, ch, e) ==
               if Check(o.keepalive, ch.session.value, e.now, e.refusal).1.Dead?
               then TearDown(m, Own(KeepaliveTimedOut))
               else Rearm(o, Flush(m, e.flush), e.skew)
  {
    ReadyHasSession(ch);
    hide Core, Moves, Flush, Rearm, TearDown, Check;
    CheckedMoves(o, ch, e.now, e.refusal);
    CoreOf(ch, Evaluated(o, ch, e));
  }

  lemma KeepaliveKeeps(o: Config, ch: Channel, e: Event, maxSkew: nat)
    requires Core(ch) && ch.phase.Ready? && e.TimerFires? && e.skew <= maxSkew
    requires ch.pending == [] && ch.connectTimer == 0 && ch.watch == WatchSession
    ensures Moves(ch, OnKeepalive(o, ch, e), {}) && Inv(o, OnKeepalive(o, ch, e), maxSkew)
  {
    KeepaliveSteps(o, ch, e);
    hide Core, Moves, Known, Flush, Rearm, TearDown, Check, OnKeepalive;
    var m, r := Evaluated(o, ch, e), OnKeepalive(o, ch, e);
    if Check(o.keepalive, ch.session.value, e.now, e.refusal).1.Dead? {
      TearDownOn(ch, m, Own(KeepaliveTimedOut));
    } else {
      var n := Flush(m, e.flush);
      FlushMoves(m, e.flush);
      Then(ch, m, n, {});
      CoreOf(ch, n);
      RearmMoves(o, n, e.skew, maxSkew);
      Then(ch, n, r, {});
    }
    CoreOf(ch, r);
  }

  lemma TimerKeeps(o: Config, ch: Channel, e: Event, maxSkew: nat)
    requires Inv(o, ch, maxSkew) && e.TimerFires? && Enabled(ch, e, maxSkew)
    ensures Moves(ch, OnTimer(o, ch, e), {}) && Inv(o, OnTimer(o, ch, e), maxSkew)
  {
    TimerTaken(ch, e.timer);
    assert ch.phase.Over() ==> ch.timers.pending == map[];
    hide Core, Moves, Known, OnKeepalive, TearDown;
    var r := OnTimer(o, ch, e);
    match ch.timers.pending[e.timer].callback
    case ConnectTimeout =>
      var m := ch.(timers := Removed(ch.timers, e.timer), connectTimer := 0);
      CoreOf(ch, m);
      TearDownMoves(m, Own(ConnectTimedOut));
      Then(ch, m, r, {});
      CoreOf(ch, r);
    case KeepaliveCheck =>
      var m := ch.(timers := Removed(ch.timers, e.timer), keepaliveTimer := 0);
      CoreOf(ch, m);
      TimerMeansReady(o, ch, e.timer, maxSkew);
      KeepaliveKeeps(o, m, e, maxSkew);
      Then(ch, m, r, {});
  }

  lemma TimerMeansReady(o: Config, ch: Channel, id: nat, maxSkew: nat)
    requires Inv(o, ch, maxSkew) && id in ch.timers.pending && id == ch.keepaliveTimer
    ensures ch.phase.Ready?
  {
  }

  // ------------------------------------------------------------ shutdown

  lemma {:induction false} FarewellCalls(s: Session, script: seq<FlushTurn>)
    requires Agrees(s) && Bounded(s)
    ensures Closed(Farewell(s, script)) <= Calls(s)
    decreases |script|
  {
    hide Agrees, Bounded, Calls, Closed, Refill, RefillHooks, Consume, Offered;
    var turn := Turn(script);
    RefillFacts(s, turn.productions);
    if !(Offered(s, turn.productions) == [] || !turn.write.Wrote? || script == []) {
      var after := Refill(s, turn.productions);
      ConsumeFacts(after, turn.write.n);
      FarewellCalls(Consume(after, turn.write.n), script[1..]);
      ClosedBoth(RefillHooks(s, turn.productions), Farewell(Consume(after, turn.write.n), script[1..]));
    }
  }

  lemma ConsumeFacts(s: Session, n: nat)
    requires Agrees(s) && Bounded(s)
    ensures Agrees(Consume(s, n)) && Bounded(Consume(s, n)) && Calls(Consume(s, n)) == Calls(s)
  {
    StepBounded(Options(0, 0, true), s, Consumed(n));
  }

  lemma TerminateFacts(s: Session)
    requires Agrees(s) && Bounded(s)
    ensures Agrees(Terminate(s)) && Bounded(Terminate(s)) && Calls(Terminate(s)) == Calls(s)
  {
  }

  /** Shutdown gives every queued and active call its result before anything else can. */
  lemma ShutdownKeeps(o: Config, ch: Channel, e: Event, maxSkew: nat)
    requires Inv(o, ch, maxSkew) && e.ShutdownOp?
    ensures var r := DoShutdown(ch, e);
            && Moves(ch, r, {}) && Inv(o, r, maxSkew) && r.phase.ShutDown?
            && (ch.phase.ShutDown? ||
                r.results == CompleteAll(ch.results, ch.active + Elements(ch.pending), FailedWith(ChannelShutDown)))
  {
    hide Core, Moves, Closed, AfterHooks, Farewell, Terminate, WithoutTimers, CompleteAll;
    CoreOfInv(o, ch, maxSkew);
    var r := DoShutdown(ch, e);
    if ch.phase.ShutDown? {
      Stays(ch);
    } else {
      var all := ch.active + Elements(ch.pending);
      var closed := WithoutTimers(ch).(phase := ShutDown, active := {}, pending := [],
                                      results := CompleteAll(ch.results, all, FailedWith(ChannelShutDown)));
      var hooks := if ch.phase.Ready? && ch.session.Some? then Farewell(Terminate(ch.session.value), e.flush) else [];
      ClosedDown(ch, closed);
      HooksEffect(closed, hooks);
      FarewellIsLate(ch, e.flush);
      NoHooks(closed);
      SameResults(closed.results, r.results, Closed(hooks));
      assert r == closed.(session := None);
      CoreOf(ch, r);
    }
  }

  /** The state with every call failed and the session dropped is sound, and nothing was lost on the way. */
  lemma ClosedDown(ch: Channel, closed: Channel)
    requires Core(ch) && !ch.phase.ShutDown?
    requires closed == WithoutTimers(ch).(phase := ShutDown, active := {}, pending := [],
               results := CompleteAll(ch.results, ch.active + Elements(ch.pending), FailedWith(ChannelShutDown)))
    ensures Moves(ch, closed.(session := None), {}) && Released(closed.(session := None))
    ensures closed.results.Keys == Known(ch)
  {
    hide Linked, Timed, OnePlace, Coded, CompleteAll;
    AllCompleted(ch, FailedWith(ChannelShutDown));
    TimersGone(ch);
    OnlyTimersSame(WithoutTimers(ch), closed.(session := None));
    NoCallsLeft(ch, closed.(session := None), FailedWith(ChannelShutDown));
  }

  /** Hooks of the farewell flush find their calls already failed. */
  lemma FarewellIsLate(ch: Channel, flush: seq<FlushTurn>)
    requires Core(ch)
    ensures ch.phase.Ready? && ch.session.Some? ==> Closed(Farewell(Terminate(ch.session.value), flush)) <= ch.active
  {
    hide Farewell, Terminate, OnePlace, Timed;
    if ch.phase.Ready? {
      TerminateFacts(ch.session.value);
      FarewellCalls(Terminate(ch.session.value), flush);
    }
  }

  lemma SameResults(a: map<CallId, Completion>, b: map<CallId, Completion>, late: set<CallId>)
    requires Grows(a, b) && b.Keys == a.Keys + late && late <= a.Keys
    ensures b == a
  {
  }

  lemma NoHooks(ch: Channel)
    ensures AfterHooks(ch, []) == ch
  {
  }

  // ------------------------------------------------------------ every run

  lemma HandleKeeps(o: Config, ch: Channel, e: Event, maxSkew: nat)
    requires Inv(o, ch, maxSkew) && Enabled(ch, e, maxSkew)
    ensures Moves(ch, Handle(o, ch, e), CallsOf(e)) && Inv(o, Handle(o, ch, e), maxSkew)
  {
    hide Inv, Moves, HandleNewCall, DoShutdown, OnConnectProgress, OnSocketReady, OnTimer;
    match e
    case NewCall(_, _, _, _, _) => NewCallKeeps(o, ch, e, maxSkew);
    case ShutdownOp(_) => ShutdownKeeps(o, ch, e, maxSkew);
    case Connect(_, _, _, _, _, _, _) => ConnectKeeps(o, ch, e, maxSkew);
    case Traffic(_, _, _, _) => TrafficKeeps(o, ch, e, maxSkew);
    case TimerFires(_, _, _, _, _) => TimerKeeps(o, ch, e, maxSkew);
  }

  /** The channel after a list of events, from any state. */
  ghost function HandleAll(o: Config, ch: Channel, events: seq<Event>): (r: Channel) {
    if events == [] then ch
    else
      var m := HandleAll(o, ch, events[..|events| - 1]);
      var e := events[|events| - 1];
      if e.TimerFires? && e.timer !in m.timers.pending then m else Handle(o, m, e)
  }

  /** Every event was possible when it happened. */
  ghost predicate Possible(o: Config, ch: Channel, events: seq<Event>, maxSkew: nat) {
    forall k :: 0 <= k < |events| ==> Enabled(HandleAll(o, ch, events[..k]), events[k], maxSkew)
  }

  ghost function CallsIn(events: seq<Event>): (cs: set<CallId>) {
    if events == [] then {} else CallsIn(events[..|events| - 1]) + CallsOf(events[|events| - 1])
  }

  lemma PossibleFront(o: Config, ch: Channel, events: seq<Event>, maxSkew: nat)
    requires events != [] && Possible(o, ch, events, maxSkew)
    ensures Possible(o, ch, events[..|events| - 1], maxSkew)
    ensures Enabled(HandleAll(o, ch, events[..|events| - 1]), events[|events| - 1], maxSkew)
  {
    hide Enabled;
    var front := events[..|events| - 1];
    forall k | 0 <= k < |front|
      ensures Enabled(HandleAll(o, ch, front[..k]), front[k], maxSkew)
    {
      assert front[..k] == events[..k];
    }
  }

  lemma {:induction false} PossiblePrefix(o: Config, ch: Channel, events: seq<Event>, maxSkew: nat, k: nat)
    requires k <= |events| && Possible(o, ch, events, maxSkew)
    ensures Possible(o, ch, events[..k], maxSkew)
    decreases |events|
  {
    hide Possible, HandleAll;
    if k == |events| {
      assert events[..k] == events;
    } else {
      var front := events[..|events| - 1];
      PossibleFront(o, ch, events, maxSkew);
      PossiblePrefix(o, ch, front, maxSkew, k);
      assert front[..k] == events[..k];
    }
  }

  /**
   From any sound state through any events: the state stays sound, nothing goes back, no call
   appears or disappears.
   */
  lemma {:induction false} EventsKeep(o: Config, ch: Channel, events: seq<Event>, maxSkew: nat)
    requires Inv(o, ch, maxSkew) && Possible(o, ch, events, maxSkew)
    ensures Inv(o, HandleAll(o, ch, events), maxSkew)
    ensures Moves(ch, HandleAll(o, ch, events), CallsIn(events))
    decreases |events|
  {
    hide Inv, Moves, Handle, Possible;
    if events == [] {
      CoreOfInv(o, ch, maxSkew);
      Stays(ch);
    } else {
      var front, e := events[..|events| - 1], events[|events| - 1];
      PossibleFront(o, ch, events, maxSkew);
      EventsKeep(o, ch, front, maxSkew);
      var m := HandleAll(o, ch, front);
      HandleKeeps(o, m, e, maxSkew);
      MovesOn(ch, m, Handle(o, m, e), CallsIn(front), CallsOf(e));
    }
  }

  lemma CoreOfInv(o: Config, ch: Channel, maxSkew: nat)
    requires Inv(o, ch, maxSkew)
    ensures Core(ch)
  {
    hide Core;
  }

  /** Runs of a new channel. */
  ghost function Run(o: Config, events: seq<Event>): (ch: Channel) { HandleAll(o, START, events) }

  ghost predicate Lawful(o: Config, events: seq<Event>, maxSkew: nat) { Possible(o, START, events, maxSkew) }

  /**
   In every run, in every state: the invariant holds, and the calls ever given to
   the channel are exactly the ones queued, in flight or finished.
   */
  lemma EveryRun(o: Config, events: seq<Event>, maxSkew: nat)
    requires Lawful(o, events, maxSkew)
    ensures Inv(o, Run(o, events), maxSkew) && Known(Run(o, events)) == CallsIn(events)
  {
    hide Possible, HandleAll, Core;
    StartIsSound(o, maxSkew);
    EventsKeep(o, START, events, maxSkew);
  }

  lemma StartIsSound(o: Config, maxSkew: nat)
    ensures Inv(o, START, maxSkew) && Known(START) == {}
  {
    assert Elements([]) == {};
  }

  /**
   From any moment of a run to any later one: the phase never goes back and no result is ever
   changed or withdrawn.
   */
  lemma {:induction false} NeverBack(o: Config, events: seq<Event>, maxSkew: nat, k: nat)
    requires Lawful(o, events, maxSkew) && k <= |events|
    ensures Run(o, events[..k]).phase.Rank() <= Run(o, events).phase.Rank()
    ensures Grows(Run(o, events[..k]).results, Run(o, events).results)
    decreases |events|
  {
    hide Possible, Inv, Core, Known, Handle;
    if k == |events| {
      assert events[..k] == events;
    } else {
      var front, e := events[..|events| - 1], events[|events| - 1];
      assert front[..k] == events[..k];
      PossibleFront(o, START, events, maxSkew);
      NeverBack(o, front, maxSkew, k);
      EveryRun(o, front, maxSkew);
      HandleKeeps(o, Run(o, front), e, maxSkew);
    }
  }

  /** Where a call of a run is: exactly one place, and the queue only while connecting. */
  lemma WhereCallsAre(o: Config, events: seq<Event>, maxSkew: nat, c: CallId)
    requires Lawful(o, events, maxSkew)
    ensures var ch := Run(o, events);
            && (c in CallsIn(events) <==> c in ch.pending || c in ch.active || c in ch.results)
            && !(c in ch.pending && c in ch.active) && !(c in ch.pending && c in ch.results)
            && !(c in ch.active && c in ch.results)
            && (c in ch.pending ==> ch.phase.Connecting?)
            && (c in ch.active ==> ch.phase.Ready?)
            && (ch.phase.Over() ==> Released(ch) && (c in CallsIn(events) ==> c in ch.results))
  {
    hide Timed, Linked, Armed, Run, Lawful;
    EveryRun(o, events, maxSkew);
    var ch := Run(o, events);
    assert c in ch.pending <==> c in Elements(ch.pending);
  }
}
