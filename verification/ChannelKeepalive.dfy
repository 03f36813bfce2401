/**
 Keepalive on the channel: when a timer is pending, what a silent peer leads to,
 and when a pass over the channel's timers ends.
 */
module ChannelKeepalive {
  import opened Octets
  import opened SessionModel
  import opened TimerModel
  import opened ChannelModel
  import opened ChannelSafety
  import opened ChannelRuns
  import opened ChannelOutput
  import opened ChannelStories
  import opened ChannelCauses
  import opened ChannelGoAway

  // ------------------------------------------------------------ who arms the timer

  /** A new call on a Ready channel never touches the keepalive timer: it is armed afterwards only if it was before. */
  lemma NewCallNeverArms(o: Config, ch: Channel, e: Event, maxSkew: nat)
    requires Inv(o, ch, maxSkew) && ch.phase.Ready? && e.NewCall? && Enabled(ch, e, maxSkew)
    ensures var r := HandleNewCall(o, ch, e);
            r.phase.Ready? ==> r.keepaliveTimer == ch.keepaliveTimer && r.timers == ch.timers
                               && r.session.Some? && SameClock(ch.session.value, r.session.value)
  {
    CoreOfInv(o, ch, maxSkew);
    ReadyHasSession(ch);
    hide Inv, Core, Moves, Flush, SubmitCall;
    var m := SubmitCall(ch, e.call, e.id);
    SubmitMoves(ch, e.call, e.id);
    CoreOf(ch, m);
    FlushMoves(m, e.flush);
  }

  /** A socket event leaves a timer exactly when the session has a deadline. */
  lemma TrafficRearms(o: Config, ch: Channel, e: Event)
    requires Core(ch) && ch.phase.Ready? && e.Traffic?
    ensures OnSocketReady(o, ch, e).phase.Ready? ==> Rearmed(o, OnSocketReady(o, ch, e))
  {
    hide Core, Moves, Flush, DrainSocket, Rearm, Rearmed;
    var m := if e.readable then DrainSocket(ch, e.input) else ch;
    if e.readable { DrainMoves(ch, e.input); } else { Stays(ch); }
    CoreOf(ch, m);
    if m.phase.Ready? {
      FlushMoves(m, e.flush);
      CoreOf(m, Flush(m, e.flush));
      RearmMoves(o, Flush(m, e.flush), e.skew, e.skew);
    }
  }

  lemma KeepaliveRearms(o: Config, ch: Channel, e: Event)
    requires Core(ch) && ch.phase.Ready? && e.TimerFires?
    ensures OnKeepalive(o, ch, e).phase.Ready? ==> Rearmed(o, OnKeepalive(o, ch, e))
  {
    KeepaliveSteps(o, ch, e);
    hide Core, Moves, Flush, Rearm, Rearmed, OnKeepalive, Check;
    var m := Evaluated(o, ch, e);
    TornDownIsOver(m, Own(KeepaliveTimedOut));
    FlushMoves(m, e.flush);
    CoreOf(m, Flush(m, e.flush));
    RearmMoves(o, Flush(m, e.flush), e.skew, e.skew);
  }

  lemma TimerRearms(o: Config, ch: Channel, e: Event, maxSkew: nat)
    requires Inv(o, ch, maxSkew) && ch.phase.Ready? && e.TimerFires? && Enabled(ch, e, maxSkew)
    ensures OnTimer(o, ch, e).phase.Ready? ==> Rearmed(o, OnTimer(o, ch, e))
  {
    TimerIsKeepalive(o, ch, e.timer, maxSkew);
    TimerTaken(ch, e.timer);
    hide Core, Moves, OnKeepalive, Rearmed;
    var f := ch.(timers := Removed(ch.timers, e.timer), keepaliveTimer := 0);
    CoreOf(ch, f);
    KeepaliveRearms(o, f, e);
  }

  /** The session comes up with a timer only if keepalive may run without calls: it arms before it submits the queue. */
  lemma SessionUpArms(o: Config, ch: Channel, e: Event)
    requires Core(ch) && ch.phase.Connecting? && e.Connect? && DistinctIds(e.ids)
    ensures SessionUp(o, ch, e).phase.Ready? ==>
              (SessionUp(o, ch, e).keepaliveTimer != 0 <==> o.keepalive.permitWithoutCalls)
  {
    hide Core, Moves, Known, Flush, Rearm, SubmitAll;
    var x := ch.(session := Some(SessionModel.Init(e.now)), watch := WatchSession, phase := Ready);
    assert x.active == {} by { IdleFacts(ch); }
    BringUp(ch, e.now);
    CoreOf(ch, x);
    var y := Flush(x, e.preface);
    FlushMoves(x, e.preface);
    CoreOf(x, y);
    var up := Rearm(o, y, e.skew);
    RearmMoves(o, y, e.skew, e.skew);
    CoreOf(y, up);
    if up.phase.Ready? {
      StreamsAreCalls(up);
      ReadyHasSession(up);
      SubmitKeepsTimer(up, e);
    } else {
      OverFacts(up);
      assert up.(pending := []) == up;
      NothingToSubmit(up, e.ids);
    }
  }

  lemma SubmitKeepsTimer(up: Channel, e: Event)
    requires Core(up) && up.phase.Ready? && up.active == {} && e.Connect? && DistinctIds(e.ids)
    ensures var m := SubmitAll(up.(pending := []), up.pending, e.ids);
            m.phase.Ready? && (Flush(m, e.flush).phase.Ready? ==> Flush(m, e.flush).keepaliveTimer == up.keepaliveTimer)
  {
    hide Core, Moves, Known, Flush, SubmitAll;
    NoStreams(up);
    Unqueue(up);
    var m := SubmitAll(up.(pending := []), up.pending, e.ids);
    SubmitAllMoves(up.(pending := []), up.pending, e.ids);
    CoreOf(up.(pending := []), m);
    FlushMoves(m, e.flush);
  }

  /** The session counts streams; the channel has as many active calls. */
  lemma StreamsAreCalls(ch: Channel)
    requires Core(ch) && ch.phase.Ready?
    ensures ch.session.Some? && ch.session.value.live
    ensures ch.session.value.activeStreams == 0 <==> ch.active == {}
  {
    hide OnePlace, Timed, Coded;
    var s := ch.session.value;
    if ch.active == {} { NoStreams(ch); }
    if s.activeStreams == 0 {
      assert s.streams == map[];
      assert Calls(s) == {};
    }
  }

  /** Whether a stream was active when keepalive was last re-armed: socket and timer events re-arm, calls do not. */
  ghost predicate StreamAtRearm(o: Config, events: seq<Event>) {
    events != [] &&
    var e := events[|events| - 1];
    if e.NewCall? || e.ShutdownOp? then StreamAtRearm(o, events[..|events| - 1])
    else !e.Connect? && ChannelRuns.Run(o, events).active != {}
  }

  lemma ArmedAfter(o: Config, ch: Channel, e: Event, maxSkew: nat)
    requires Inv(o, ch, maxSkew) && Enabled(ch, e, maxSkew) && !e.NewCall? && !e.ShutdownOp?
    ensures var r := Handle(o, ch, e);
            r.phase.Ready? ==> (r.keepaliveTimer != 0 <==>
                                  o.keepalive.permitWithoutCalls || (!e.Connect? && r.active != {}))
  {
    CoreOfInv(o, ch, maxSkew);
    HandleKeeps(o, ch, e, maxSkew);
    var r := Handle(o, ch, e);
    CoreOf(ch, r);
    if e.Connect? {
      ConnectArms(o, ch, e, maxSkew);
    } else if r.phase.Ready? {
      FiringMeansReady(o, ch, e, maxSkew);
      hide Inv, Core, OnSocketReady, OnTimer, Moves;
      StreamsAreCalls(r);
      if e.Traffic? { TrafficRearms(o, ch, e); } else { TimerRearms(o, ch, e, maxSkew); }
    }
  }

  lemma FiringMeansReady(o: Config, ch: Channel, e: Event, maxSkew: nat)
    requires Inv(o, ch, maxSkew) && Enabled(ch, e, maxSkew)
    requires e.Traffic? || (e.TimerFires? && Handle(o, ch, e).phase.Ready?)
    ensures ch.phase.Ready?
  {
    if e.Traffic? {
      SocketMeansReady(o, ch, maxSkew);
    } else {
      TimerTaken(ch, e.timer);
      TornDownIsOver(ch.(timers := Removed(ch.timers, e.timer), connectTimer := 0), Own(ConnectTimedOut));
      hide TearDown, OnKeepalive;
      if e.timer == ch.keepaliveTimer { TimerMeansReady(o, ch, e.timer, maxSkew); }
    }
  }

  lemma ConnectArms(o: Config, ch: Channel, e: Event, maxSkew: nat)
    requires Inv(o, ch, maxSkew) && Enabled(ch, e, maxSkew) && e.Connect?
    ensures var r := Handle(o, ch, e);
            r.phase.Ready? ==> (r.keepaliveTimer != 0 <==> o.keepalive.permitWithoutCalls)
  {
    hide OnePlace, Timed, Linked, SessionUp, TearDown, Moves, Coded;
    var m := ch.(timers := Cancelled(ch.timers, ch.connectTimer), connectTimer := 0);
    ConnectTimerOff(ch);
    CoreOf(ch, m);
    SessionUpArms(o, m, e);
    if e.outcome.ConnectError? { TornDownIsOver(m, Own(SocketFailed(e.outcome.text))); }
    if e.setupFailure.Some? { TornDownIsOver(m, OfSession(Library(e.setupFailure.value))); }
  }

  /**
   When a Ready channel has a keepalive timer, in every run: exactly with
   permit_without_calls, or if a stream was active at the last re-arm.
   */
  lemma {:induction false} ArmedExactly(o: Config, events: seq<Event>, maxSkew: nat)
    requires ChannelRuns.Lawful(o, events, maxSkew) && ChannelRuns.Run(o, events).phase.Ready?
    ensures ChannelRuns.Run(o, events).keepaliveTimer != 0 <==>
            o.keepalive.permitWithoutCalls || StreamAtRearm(o, events)
    decreases |events|
  {
    hide Inv, Handle, Enabled, Possible;
    StartIsSound(o, maxSkew);
    if events != [] {
      var front, e := events[..|events| - 1], events[|events| - 1];
      LastStep(o, START, events, maxSkew);
      var m := ChannelRuns.Run(o, front);
      if e.NewCall? {
        CallsMakeNothingReady(o, m, e);
        NewCallNeverArms(o, m, e, maxSkew);
        ArmedExactly(o, front, maxSkew);
      } else if e.ShutdownOp? {
        ShutdownKeeps(o, m, e, maxSkew);
        ShutsDown(o, m, e);
      } else {
        ArmedAfter(o, m, e, maxSkew);
      }
    }
  }

  lemma CallsMakeNothingReady(o: Config, ch: Channel, e: Event)
    requires e.NewCall? && Handle(o, ch, e).phase.Ready?
    ensures ch.phase.Ready? && Handle(o, ch, e) == HandleNewCall(o, ch, e)
  {
  }

  lemma ShutsDown(o: Config, ch: Channel, e: Event)
    requires e.ShutdownOp?
    ensures Handle(o, ch, e) == DoShutdown(ch, e)
  {
  }

  /**
   So "Ready implies armed" is false without permit_without_calls, from the first
   connection on: in this run a call is in flight, the session has a keepalive
   deadline, and no timer waits for it.
   */
  lemma UnarmedAfterConnect(o: Config)
    requires !o.keepalive.permitWithoutCalls
    ensures var w := [FirstCall(), Handshake()];
            var r := ChannelRuns.Run(o, w);
            && ChannelRuns.Lawful(o, w, 0)
            && r.phase.Ready? && r.active == {1} && r.session.Some?
            && Deadline(o.keepalive, r.session.value).Some? && r.keepaliveTimer == 0 && r.timers.pending == map[]
  {
    hide HandleNewCall, OnConnectProgress, HandleAll;
    var w := [FirstCall(), Handshake()];
    RunNext(o, w, 0);
    RunNext(o, w, 1);
    NothingRun(o, w);
    Connects(o);
    ComesUp(o);
    assert w[..2] == w;
    assert forall k :: 0 <= k < |w| ==> Enabled(ChannelRuns.Run(o, w[..k]), w[k], 0);
  }

  // ------------------------------------------------------------ a silent peer

  /** Nothing is received: calls are made, or the socket is served without a byte coming in. */
  predicate Silent(e: Event) {
    e.NewCall? || (e.Traffic? && (e.readable ==> forall i :: 0 <= i < |e.input| ==> !e.input[i].ReadBytes?))
  }

  predicate AllSilent(events: seq<Event>) { forall i :: 0 <= i < |events| ==> Silent(events[i]) }

  lemma DrainNothing(ch: Channel, input: seq<ReadOutcome>)
    requires ch.phase.Ready? && forall i :: 0 <= i < |input| ==> !input[i].ReadBytes?
    ensures DrainSocket(ch, input).phase.Ready? ==> DrainSocket(ch, input) == ch
  {
  }

  /** An event without received bytes leaves the keepalive clock alone. */
  lemma SilentKeepsClock(o: Config, ch: Channel, e: Event, maxSkew: nat)
    requires Inv(o, ch, maxSkew) && ch.phase.Ready? && Enabled(ch, e, maxSkew) && Silent(e)
    ensures var r := Handle(o, ch, e);
            r.phase.Ready? ==> ch.session.Some? && r.session.Some? && SameClock(ch.session.value, r.session.value)
  {
    CoreOfInv(o, ch, maxSkew);
    hide Inv, Core, HandleNewCall, OnSocketReady, SameClock;
    if e.NewCall? { NewCallNeverArms(o, ch, e, maxSkew); } else { SilentTraffic(o, ch, e); }
    ReadyHasSession(ch);
  }

  lemma SilentTraffic(o: Config, ch: Channel, e: Event)
    requires Core(ch) && ch.phase.Ready? && e.Traffic? && Silent(e)
    ensures ch.session.Some?
    ensures var r := OnSocketReady(o, ch, e);
            r.phase.Ready? ==> r.session.Some? && SameClock(ch.session.value, r.session.value)
  {
    if e.readable { DrainNothing(ch, e.input); }
    hide Core, Flush, DrainSocket, Rearm, SameClock;
    FlushKeepsClock(o, ch, e.flush, e.skew);
    NoRearm(o, Flush(ch, e.flush), e.skew);
  }

  lemma FlushKeepsClock(o: Config, ch: Channel, flush: seq<FlushTurn>, skew: nat)
    requires Core(ch) && ch.phase.Ready?
    ensures ch.session.Some?
    ensures var r := Rearm(o, Flush(ch, flush), skew);
            r.phase.Ready? ==> r.session.Some? && SameClock(ch.session.value, r.session.value)
  {
    ReadyHasSession(ch);
    hide Core, Moves, Flush, Rearm, SameClock, Armed, Rearmed;
    FlushMoves(ch, flush);
    CoreOf(ch, Flush(ch, flush));
    RearmMoves(o, Flush(ch, flush), skew, skew);
  }

  lemma {:induction false} SilentStretch(o: Config, ch: Channel, events: seq<Event>, maxSkew: nat)
    requires Inv(o, ch, maxSkew) && ch.phase.Ready?
    requires AllSilent(events) && Possible(o, ch, events, maxSkew)
    ensures var r := HandleAll(o, ch, events);
            && Inv(o, r, maxSkew)
            && (r.phase.Ready? ==>
                  ch.session.Some? && r.session.Some? && SameClock(ch.session.value, r.session.value))
    decreases |events|
  {
    EventsKeep(o, ch, events, maxSkew);
    ReadyHasLiveSession(o, ch, maxSkew);
    hide Inv, Handle, Possible, Enabled;
    if events != [] {
      LastStep(o, ch, events, maxSkew);
      var front, e := events[..|events| - 1], events[|events| - 1];
      SilentStretch(o, ch, front, maxSkew);
      if HandleAll(o, ch, events).phase.Ready? { SilentKeepsClock(o, HandleAll(o, ch, front), e, maxSkew); }
    }
  }

  /** A firing keepalive timer is never early. */
  lemma FiringIsDue(o: Config, ch: Channel, e: Event, maxSkew: nat)
    requires Inv(o, ch, maxSkew) && ch.phase.Ready? && e.TimerFires? && Enabled(ch, e, maxSkew)
    ensures ch.session.Some? && ch.session.value.live && Clock(o.keepalive, ch.session.value) <= e.now
  {
    TimerIsKeepalive(o, ch, e.timer, maxSkew);
    hide OnePlace, Linked, Coded;
    assert ch.session.value.live by { ReadyHasLiveSession(o, ch, maxSkew); }
  }

  /**
   The first firing pings. With no PING outstanding, a firing of the keepalive timer
   sends one exactly when keepalive may run without calls or a call is in flight.
   */
  lemma FirstFiringPings(o: Config, ch: Channel, e: Event, maxSkew: nat)
    requires Inv(o, ch, maxSkew) && ch.phase.Ready? && e.TimerFires? && Enabled(ch, e, maxSkew) && e.refusal.None?
    requires !ch.session.value.pingOutstanding
    ensures Check(o.keepalive, ch.session.value, e.now, e.refusal).1.PingSent?
            <==> o.keepalive.permitWithoutCalls || ch.active != {}
  {
    CoreOfInv(o, ch, maxSkew);
    FiringIsDue(o, ch, e, maxSkew);
    hide Inv, Core;
    StreamsAreCalls(ch);
  }

  /** After the firing that pinged, the session waits for an answer sent at that time. */
  lemma PingedAt(o: Config, ch: Channel, e: Event)
    requires Core(ch) && ch.phase.Ready? && e.TimerFires?
    requires ch.session.Some? && Check(o.keepalive, ch.session.value, e.now, e.refusal).1.PingSent?
    ensures var r := OnKeepalive(o, ch, e);
            r.phase.Ready? ==>
              && r.session.Some? && r.session.value.pingOutstanding
              && r.session.value.pingSent == e.now && r.session.value.lastRead == ch.session.value.lastRead
  {
    KeepaliveSteps(o, ch, e);
    PingedNow(o.keepalive, ch.session.value, e.now, e.refusal);
    hide Core, Moves, Flush, Rearm, OnKeepalive, Check;
    var m := Evaluated(o, ch, e);
    FlushMoves(m, e.flush);
    CoreOf(m, Flush(m, e.flush));
    RearmMoves(o, Flush(m, e.flush), e.skew, e.skew);
  }

  lemma PingedNow(o: Options, s: Session, now: int, refusal: Option<string>)
    requires Check(o, s, now, refusal).1.PingSent?
    ensures var r := Check(o, s, now, refusal).0;
            r.pingOutstanding && r.pingSent == now && r.lastRead == s.lastRead
  {
  }

  lemma FiringKills(o: Config, ch: Channel, e: Event, maxSkew: nat)
    requires Inv(o, ch, maxSkew) && ch.phase.Ready? && e.TimerFires? && Enabled(ch, e, maxSkew)
    requires var s := ch.session.value; s.pingOutstanding && s.lastRead < s.pingSent
    ensures var r := OnTimer(o, ch, e);
            && e.now >= ch.session.value.pingSent + o.keepalive.keepaliveTimeout
            && r.phase.Failed? && r.detail == KeepaliveTimedOut
            && forall c :: c in ch.active ==> c in r.results && r.results[c] == FailedWith(KeepaliveTimedOut)
  {
    FiringIsDue(o, ch, e, maxSkew);
    TimerIsKeepalive(o, ch, e.timer, maxSkew);
    TimerTaken(ch, e.timer);
    hide Inv, Moves, Core, OnKeepalive, Enabled;
    var f := ch.(timers := Removed(ch.timers, e.timer), keepaliveTimer := 0);
    CoreOf(ch, f);
    CallbackKills(o, f, e);
  }

  lemma CallbackKills(o: Config, ch: Channel, e: Event)
    requires Core(ch) && ch.phase.Ready? && e.TimerFires? && ch.session.Some?
    requires var s := ch.session.value; s.pingOutstanding && s.lastRead < s.pingSent
    requires e.now >= ch.session.value.pingSent + o.keepalive.keepaliveTimeout
    ensures var r := OnKeepalive(o, ch, e);
            && r.phase.Failed? && r.detail == KeepaliveTimedOut
            && forall c :: c in ch.active ==> c in r.results && r.results[c] == FailedWith(KeepaliveTimedOut)
  {
    KeepaliveSteps(o, ch, e);
    assert Check(o.keepalive, ch.session.value, e.now, e.refusal).1.Dead?;
    hide Moves, Core, OnKeepalive, TearDown, Check;
    TearDownMoves(Evaluated(o, ch, e), Own(KeepaliveTimedOut));
    TornDown(Evaluated(o, ch, e), Own(KeepaliveTimedOut));
  }

  /**
   A silent peer. A keepalive firing with no PING outstanding sends one, unless
   keepalive is gated off. Calls may come in and the socket may be served, but
   nothing is received. When the timer fires again the channel fails, and every call
   then in flight fails with that reason.
   */
  lemma SilentPeerFailsEveryCall(o: Config, ch: Channel, first: Event, events: seq<Event>, second: Event, maxSkew: nat)
    requires Inv(o, ch, maxSkew) && ch.phase.Ready? && !ch.session.value.pingOutstanding
    requires first.TimerFires? && Enabled(ch, first, maxSkew) && first.refusal.None?
    requires ch.session.value.lastRead < first.now && (o.keepalive.permitWithoutCalls || ch.active != {})
    requires var pinged := OnTimer(o, ch, first);
             && pinged.phase.Ready? && AllSilent(events) && Possible(o, pinged, events, maxSkew)
             && var late := HandleAll(o, pinged, events);
                late.phase.Ready? && second.TimerFires? && Enabled(late, second, maxSkew)
    ensures var late := HandleAll(o, OnTimer(o, ch, first), events);
            var r := OnTimer(o, late, second);
            && second.now >= first.now + o.keepalive.keepaliveTimeout
            && r.phase.Failed? && r.detail == KeepaliveTimedOut
            && forall c :: c in late.active ==> c in r.results && r.results[c] == FailedWith(KeepaliveTimedOut)
  {
    FirstFiringPings(o, ch, first, maxSkew);
    TimerIsKeepalive(o, ch, first.timer, maxSkew);
    TimerKeeps(o, ch, first, maxSkew);
    TimerTaken(ch, first.timer);
    hide Moves, HandleAll, Possible, Inv, Core, OnKeepalive;
    var f := ch.(timers := Removed(ch.timers, first.timer), keepaliveTimer := 0);
    CoreOf(ch, f);
    PingedAt(o, f, first);
    var pinged := OnTimer(o, ch, first);
    SilentStretch(o, pinged, events, maxSkew);
    FiringKills(o, HandleAll(o, pinged, events), second, maxSkew);
  }

  // ------------------------------------------------------------ passes

  ghost predicate SomeDue(ch: Channel, now: int) { exists id :: IsDue(ch.timers, id, now) }

  /** After re-arming, a timer is due exactly when the session's deadline, plus the skew, is. */
  lemma RearmExact(o: Config, ch: Channel, skew: nat, now: int)
    requires Core(ch) && ch.phase.Ready? && ch.connectTimer == 0
    ensures var r := Rearm(o, ch, skew);
            && ch.session.Some? && ch.session.value.live && r.session == ch.session && r.active == ch.active
            && (SomeDue(r, now) <==>
                  && (o.keepalive.permitWithoutCalls || r.active != {})
                  && Clock(o.keepalive, ch.session.value) + skew <= now)
  {
    StreamsAreCalls(ch);
    hide OnePlace, Linked, Coded;
    var r := Rearm(o, ch, skew);
    var d := Deadline(o.keepalive, ch.session.value);
    var cut := Cancelled(ch.timers, ch.keepaliveTimer);
    assert cut.pending.Keys == {} by { assert ch.timers.pending.Keys == {ch.keepaliveTimer} - {0}; }
    if d.Some? {
      assert r.timers.pending == map[cut.nextId := Timer(d.value + skew, KeepaliveCheck)];
      assert d.value + skew <= now ==> IsDue(r.timers, cut.nextId, now);
    } else {
      assert r.timers.pending.Keys == {};
    }
  }

  /** What the clock says after an evaluation that did not find the peer dead, at or after the deadline. */
  lemma ClockAfter(o: Options, s: Session, now: int, refusal: Option<string>)
    requires s.live && Clock(o, s) <= now && (o.permitWithoutCalls || s.activeStreams != 0)
    ensures var (r, action) := Check(o, s, now, refusal);
            !action.Dead? ==>
              Clock(o, r) == if PingDue(o, s, now) && refusal.None? then now + o.keepaliveTimeout
                             else s.lastRead + o.keepaliveTime
    ensures !Check(o, s, now, refusal).1.Dead? && !PingDue(o, s, now) ==> s.lastRead + o.keepaliveTime > now
    ensures PingDue(o, s, now) ==> !Check(o, s, now, refusal).1.Dead?
  {
  }

  lemma NothingDueOver(ch: Channel, now: int)
    requires Core(ch) && ch.phase.Over()
    ensures !SomeDue(ch, now)
  {
    hide OnePlace, Timed, Coded;
  }

  lemma CallbackGoesOn(o: Config, ch: Channel, e: Event, now: int)
    requires Core(ch) && ch.phase.Ready? && ch.connectTimer == 0 && e.TimerFires? && now <= e.now
    requires ch.session.Some? && ch.session.value.live && Clock(o.keepalive, ch.session.value) <= now
    ensures var s := ch.session.value; var r := OnKeepalive(o, ch, e);
            SomeDue(r, now) <==>
              && r.phase.Ready? && (o.keepalive.permitWithoutCalls || r.active != {})
              && PingDue(o.keepalive, s, e.now)
              && (if e.refusal.Some? then s.lastRead + o.keepalive.keepaliveTime
                  else e.now + o.keepalive.keepaliveTimeout) + e.skew <= now
  {
    KeepaliveSteps(o, ch, e);
    StreamsAreCalls(ch);
    var s, m := ch.session.value, Evaluated(o, ch, e);
    if o.keepalive.permitWithoutCalls || s.activeStreams != 0 { ClockAfter(o.keepalive, s, e.now, e.refusal); }
    hide Core, Moves, Flush, Rearm, TearDown, Check, OnKeepalive, PingDue;
    if Check(o.keepalive, s, e.now, e.refusal).1.Dead? {
      TearDownMoves(m, Own(KeepaliveTimedOut));
      CoreOf(m, OnKeepalive(o, ch, e));
      NothingDueOver(OnKeepalive(o, ch, e), now);
    } else {
      var n := Flush(m, e.flush);
      FlushMoves(m, e.flush);
      CoreOf(m, n);
      if n.phase.Ready? {
        RearmExact(o, n, e.skew, now);
        RearmMoves(o, n, e.skew, e.skew);
        NotDueIfGated(o, ch, e);
      } else {
        NoRearm(o, n, e.skew);
        NothingDueOver(n, now);
      }
    }
  }

  lemma NotDueIfGated(o: Config, ch: Channel, e: Event)
    requires ch.session.Some? && e.TimerFires?
    ensures PingDue(o.keepalive, ch.session.value, e.now) ==>
              o.keepalive.permitWithoutCalls || ch.session.value.activeStreams != 0
  {
  }

  /**
   The event thread runs timers until none is due at the time the pass began. After
   the channel's timer fired, the pass goes on exactly when the channel is still
   Ready, keepalive is not gated off, a PING was due, and either the library refused
   it and the old deadline is still past, or the timeout for its answer is already over.
   So with a positive timeout a pass fires again only after a refused PING and a
   blocked flush.
   */
  lemma PassGoesOn(o: Config, ch: Channel, e: Event, now: int, maxSkew: nat)
    requires Inv(o, ch, maxSkew) && ch.phase.Ready? && e.TimerFires? && Enabled(ch, e, maxSkew)
    requires IsDue(ch.timers, e.timer, now) && now <= e.now
    ensures var s := ch.session.value; var r := OnTimer(o, ch, e);
            && (SomeDue(r, now) <==>
                  && r.phase.Ready? && (o.keepalive.permitWithoutCalls || r.active != {})
                  && PingDue(o.keepalive, s, e.now)
                  && (if e.refusal.Some? then s.lastRead + o.keepalive.keepaliveTime
                      else e.now + o.keepalive.keepaliveTimeout) + e.skew <= now)
            && (o.keepalive.keepaliveTimeout > 0 && SomeDue(r, now) ==>
                  e.refusal.Some? && FlushEnd(o, ch, e) == Some(Blocked))
  {
    TimerIsKeepalive(o, ch, e.timer, maxSkew);
    TimerTaken(ch, e.timer);
    DueAtPass(o, ch, e, now, maxSkew);
    EventVerdict(o, ch, e, maxSkew);
    hide Core, Moves, OnKeepalive, PingDue, FlushEnd;
    var f := ch.(timers := Removed(ch.timers, e.timer), keepaliveTimer := 0);
    CoreOf(ch, f);
    CallbackGoesOn(o, f, e, now);
  }

  lemma DueAtPass(o: Config, ch: Channel, e: Event, now: int, maxSkew: nat)
    requires Inv(o, ch, maxSkew) && ch.phase.Ready? && e.TimerFires? && Enabled(ch, e, maxSkew)
    requires IsDue(ch.timers, e.timer, now)
    ensures ch.connectTimer == 0 && ch.session.Some? && ch.session.value.live
    ensures Clock(o.keepalive, ch.session.value) <= now
  {
    TimerIsKeepalive(o, ch, e.timer, maxSkew);
    hide OnePlace, Linked, Coded;
    ReadyHasLiveSession(o, ch, maxSkew);
  }

  /** The connect timer is the only one pending while connecting, and after it nothing is: the pass ends. */
  lemma ConnectPassEnds(o: Config, ch: Channel, e: Event, now: int, maxSkew: nat)
    requires Inv(o, ch, maxSkew) && ch.phase.Connecting? && e.TimerFires? && Enabled(ch, e, maxSkew)
    ensures !SomeDue(OnTimer(o, ch, e), now)
  {
    OnlyConnectTimer(o, ch, e.timer, maxSkew);
    TimerKeeps(o, ch, e, maxSkew);
    hide Inv, Core, Moves;
    var r := OnTimer(o, ch, e);
    TornDownIsOver(ch.(timers := Removed(ch.timers, e.timer), connectTimer := 0), Own(ConnectTimedOut));
    CoreOfInv(o, r, maxSkew);
    NothingDueOver(r, now);
  }
}
