/**
 The bytes on the wire, over whole runs of the channel: what the handlers hand to
 the socket is what a plain pipe between library and socket would carry.
 */
module ChannelWire {
  import opened Octets
  import opened SessionModel
  import opened TimerModel
  import opened ChannelModel
  import opened ChannelSafety
  import opened ChannelRuns
  import opened ChannelOutput
  import opened ChannelStories
  import opened ChannelCauses

  /** All bytes the channel's handlers hand to the socket in a run, in order. */
  ghost function WireOf(o: Config, events: seq<Event>): (wire: seq<byte>) {
    if events == [] then []
    else
      var front := events[..|events| - 1];
      WireOf(o, front) + SentBy(o, ChannelRuns.Run(o, front), events[|events| - 1])
  }

  /** One flush through the pipe. */
  function Flow(p: Pipe, flush: seq<FlushTurn>): (r: Pipe) {
    var q := Pump(p.waiting, flush);
    Pipe(q.waiting, p.wire + q.wire, p.made + q.made)
  }

  /** A session that comes up flushes its preface and, unless that breaks, the queued calls. */
  function FlowUp(p: Pipe, e: Event): (r: Pipe)
    requires e.Connect?
  {
    if e.outcome != Connected || e.setupFailure.Some? then p
    else if Pump(p.waiting, e.preface).end.Broken? then Flow(p, e.preface)
    else Flow(Flow(p, e.preface), e.flush)
  }

  /** The pipe after a run: each event that gets to flush lets it flow once. */
  ghost function PipeOf(o: Config, events: seq<Event>): (p: Pipe) {
    if events == [] then Pipe([], [], [])
    else
      var front, e := events[..|events| - 1], events[|events| - 1];
      var ch, p := ChannelRuns.Run(o, front), PipeOf(o, front);
      if e.Connect? then FlowUp(p, e)
      else if FlushEnd(o, ch, e).Some? || (e.ShutdownOp? && ch.phase.Ready?) then Flow(p, e.flush)
      else p
  }

  lemma FlowIsTight(p: Pipe, flush: seq<FlushTurn>)
    requires p.made == p.wire + p.waiting
    ensures Flow(p, flush).made == Flow(p, flush).wire + Flow(p, flush).waiting
  {
    hide Pump;
    var q := Pump(p.waiting, flush);
    PumpIsTight(p.waiting, flush);
    Assoc(p.wire, p.waiting, q.made);
    Assoc(p.wire, q.wire, q.waiting);
  }

  /** What the channel and the pipe have in common. */
  ghost predicate Agree(ch: Channel, p: Pipe) {
    && p.made == p.wire + p.waiting
    && (ch.phase.Ready? ==> ch.session.Some? && Unsent(ch.session.value) == p.waiting)
    && (ch.phase.Idle? || ch.phase.Connecting? ==> p == Pipe([], [], []))
  }

  /** What an event sends on a Ready channel: what the pump puts out, if the handler gets to flush. */
  lemma ReadySends(o: Config, ch: Channel, e: Event, maxSkew: nat)
    requires Inv(o, ch, maxSkew) && ch.phase.Ready? && Enabled(ch, e, maxSkew)
    ensures ch.session.Some?
    ensures SentBy(o, ch, e) == if FlushEnd(o, ch, e).Some? || e.ShutdownOp?
                                then Pump(Unsent(ch.session.value), e.flush).wire else []
  {
    CoreOfInv(o, ch, maxSkew);
    ReadyHasSession(ch);
    NoConnectWhenReady(o, ch, e, maxSkew);
    if e.TimerFires? { TimerIsKeepalive(o, ch, e.timer, maxSkew); }
    hide Inv, Core, Enabled;
    match e
    case NewCall(_, _, _, _, _) => NewCallSends(o, ch, e);
    case ShutdownOp(_) => ShutdownSends(ch, e);
    case Traffic(_, _, _, _) => TrafficSends(o, ch, e);
    case TimerFires(_, _, _, _, _) => TimerSends(o, ch, e);
    case Connect(_, _, _, _, _, _, _) =>
  }

  lemma NewCallSends(o: Config, ch: Channel, e: Event)
    requires ch.phase.Ready? && ch.session.Some? && ch.session.value.live && e.NewCall?
    ensures FlushEnd(o, ch, e).Some?
    ensures SentBy(o, ch, e) == Pump(Unsent(ch.session.value), e.flush).wire
  {
    SubmitView(ch, e.call, e.id);
    SubmitSets(o, ch.session.value, e);
    assert Submit(ch.session.value, e.call, e.id).live;
    hide Pump, Unsent, SubmitCall, Submit;
  }

  lemma ShutdownSends(ch: Channel, e: Event)
    requires ch.phase.Ready? && ch.session.Some? && ch.session.value.live && e.ShutdownOp?
    ensures SentAtShutdown(ch, e) == Pump(Unsent(ch.session.value), e.flush).wire
  {
    hide Pump;
  }

  lemma TrafficSends(o: Config, ch: Channel, e: Event)
    requires Core(ch) && ch.phase.Ready? && ch.session.Some? && ch.session.value.live && e.Traffic?
    ensures SentBy(o, ch, e) == if FlushEnd(o, ch, e).Some?
                                then Pump(Unsent(ch.session.value), e.flush).wire else []
  {
    hide Core, Moves, DrainSocket, ReadCause, Pump, Unsent;
    ReadVerdict(ch, e.input);
    if e.readable {
      DrainMoves(ch, e.input);
      var m := DrainSocket(ch, e.input);
      CoreOf(ch, m);
      if m.phase.Ready? { ReadyHasSession(m); }
    }
  }

  lemma TimerSends(o: Config, ch: Channel, e: Event)
    requires ch.phase.Ready? && ch.session.Some? && ch.session.value.live && e.TimerFires?
    requires e.timer in ch.timers.pending && ch.timers.pending[e.timer].callback == KeepaliveCheck
    ensures SentBy(o, ch, e) == if FlushEnd(o, ch, e).Some?
                                then Pump(Unsent(ch.session.value), e.flush).wire else []
  {
    CheckDecides(o.keepalive, ch.session.value, e.now, e.refusal);
    assert Check(o.keepalive, ch.session.value, e.now, e.refusal).0.live;
    hide Pump, Unsent, Check, PeerDead, PingDue;
  }

  /** Before the connection is up, only its coming up sends anything. */
  lemma OthersSendNothing(o: Config, ch: Channel, e: Event, maxSkew: nat)
    requires Inv(o, ch, maxSkew) && !ch.phase.Ready? && Enabled(ch, e, maxSkew) && !e.Connect?
    ensures SentBy(o, ch, e) == [] && FlushEnd(o, ch, e).None?
  {
    hide Linked, Timed, OnePlace, Coded, DrainSocket, Pump, Unsent;
  }

  lemma UpSends(o: Config, ch: Channel, e: Event, maxSkew: nat)
    requires Inv(o, ch, maxSkew) && e.Connect? && Enabled(ch, e, maxSkew)
    ensures var p := FlowUp(Pipe([], [], []), e); var r := OnConnectProgress(o, ch, e);
            && SentBy(o, ch, e) == p.wire
            && (r.phase.Ready? ==> r.session.Some? && Unsent(r.session.value) == p.waiting)
            && (r.phase.Connecting? ==> p == Pipe([], [], []))
  {
    WatchMeansConnecting(o, ch, maxSkew);
    ConnectTimerOff(ch);
    var m := ch.(timers := Cancelled(ch.timers, ch.connectTimer), connectTimer := 0);
    CoreOf(ch, m);
    IdsDiffer(ch, e, maxSkew);
    ConnectVerdict(o, ch, e, maxSkew);
    hide Inv, Core, Moves, OnConnectProgress, Pump, LastRefusal, Enabled, SentUp;
    if e.outcome == Connected && e.setupFailure.None? {
      SentUpIs(o, m, e);
      var p := Pump([], e.preface);
      assert [] + p.wire == p.wire;
    }
  }

  lemma SentUpIs(o: Config, ch: Channel, e: Event)
    requires Core(ch) && ch.phase.Connecting? && e.Connect? && DistinctIds(e.ids)
    ensures var p := Pump([], e.preface);
            SentUp(o, ch, e) == if p.end.Broken? then p.wire else p.wire + Pump(p.waiting, e.flush).wire
  {
    hide Core, Moves, Known, Flush, Rearm, SubmitAll, Pump, FlushSays;
    var x := ch.(session := Some(SessionModel.Init(e.now)), watch := WatchSession, phase := Ready);
    assert x.active == {} by { IdleFacts(ch); }
    BringUp(ch, e.now);
    CoreOf(ch, x);
    var y := Flush(x, e.preface);
    FlushVerdict(x, e.preface);
    FlushMoves(x, e.preface);
    CoreOf(x, y);
    PrefaceFacts(x, e.preface, y);
    var up := Rearm(o, y, e.skew);
    RearmMoves(o, y, e.skew, e.skew);
    CoreOf(y, up);
    var p := Pump([], e.preface);
    assert p.wire + [] == p.wire;
    if up.phase.Ready? {
      ReadyHasSession(up);
      QueueError(up.(pending := []), up.pending, e.ids);
    } else {
      NoRearm(o, y, e.skew);
      OverFacts(up);
      assert up.(pending := []) == up;
      NothingToSubmit(up, e.ids);
    }
  }

  lemma StepAgrees(o: Config, ch: Channel, p: Pipe, e: Event, maxSkew: nat)
    requires Inv(o, ch, maxSkew) && Enabled(ch, e, maxSkew) && Agree(ch, p)
    requires e.TimerFires? ==> e.timer in ch.timers.pending
    ensures var q := if e.Connect? then FlowUp(p, e)
                     else if FlushEnd(o, ch, e).Some? || (e.ShutdownOp? && ch.phase.Ready?) then Flow(p, e.flush)
                     else p;
            Agree(Handle(o, ch, e), q) && q.wire == p.wire + SentBy(o, ch, e)
  {
    hide *;
    if e.Connect? {
      UpAgrees(o, ch, p, e, maxSkew);
    } else if ch.phase.Ready? {
      ReadyStep(o, ch, p, e, maxSkew);
    } else {
      OtherStep(o, ch, p, e, maxSkew);
    }
  }

  lemma ReadyStep(o: Config, ch: Channel, p: Pipe, e: Event, maxSkew: nat)
    requires Inv(o, ch, maxSkew) && Enabled(ch, e, maxSkew) && Agree(ch, p) && ch.phase.Ready? && !e.Connect?
    requires e.TimerFires? ==> e.timer in ch.timers.pending
    ensures var q := if FlushEnd(o, ch, e).Some? || e.ShutdownOp? then Flow(p, e.flush) else p;
            Agree(Handle(o, ch, e), q) && q.wire == p.wire + SentBy(o, ch, e)
  {
    HandleKeeps(o, ch, e, maxSkew);
    PhaseGrows(ch, Handle(o, ch, e), CallsOf(e));
    if e.ShutdownOp? { ShutdownKeeps(o, ch, e, maxSkew); }
    hide *;
    ReadySends(o, ch, e, maxSkew);
    EventVerdict(o, ch, e, maxSkew);
    ReadyAgrees(o, ch, p, e, Handle(o, ch, e));
  }

  lemma OtherStep(o: Config, ch: Channel, p: Pipe, e: Event, maxSkew: nat)
    requires Inv(o, ch, maxSkew) && Enabled(ch, e, maxSkew) && Agree(ch, p) && !ch.phase.Ready? && !e.Connect?
    requires e.TimerFires? ==> e.timer in ch.timers.pending
    ensures FlushEnd(o, ch, e).None? && Agree(Handle(o, ch, e), p) && p.wire == p.wire + SentBy(o, ch, e)
  {
    HandleKeeps(o, ch, e, maxSkew);
    PhaseGrows(ch, Handle(o, ch, e), CallsOf(e));
    OthersSendNothing(o, ch, e, maxSkew);
    NoneBecomesReady(o, ch, e, maxSkew);
    hide Inv, Enabled, Handle, Unsent, FlushEnd, SentBy;
    assert p.wire + [] == p.wire;
  }

  lemma ReadyAgrees(o: Config, ch: Channel, p: Pipe, e: Event, r: Channel)
    requires ch.phase.Ready? && ch.session.Some? && Agree(ch, p) && !e.Connect? && Verdict(o, ch, e, r)
    requires ch.phase.Rank() <= r.phase.Rank() && (e.ShutdownOp? ==> r.phase.ShutDown?)
    requires SentBy(o, ch, e) == if FlushEnd(o, ch, e).Some? || e.ShutdownOp?
                                 then Pump(Unsent(ch.session.value), e.flush).wire else []
    ensures var q := if FlushEnd(o, ch, e).Some? || e.ShutdownOp? then Flow(p, e.flush) else p;
            Agree(r, q) && q.wire == p.wire + SentBy(o, ch, e)
  {
    FlowIsTight(p, e.flush);
    hide Pump, Unsent, StopCause, ErrorAfter, SentBy;
    assert p.wire + [] == p.wire;
  }

  lemma PhaseGrows(ch: Channel, r: Channel, x: set<CallId>)
    requires Moves(ch, r, x)
    ensures ch.phase.Rank() <= r.phase.Rank()
  {
    hide Core;
  }

  lemma NoneBecomesReady(o: Config, ch: Channel, e: Event, maxSkew: nat)
    requires Inv(o, ch, maxSkew) && Enabled(ch, e, maxSkew) && !e.Connect? && !ch.phase.Ready?
    requires e.TimerFires? ==> e.timer in ch.timers.pending
    ensures !Handle(o, ch, e).phase.Ready?
  {
    match e
    case NewCall(_, _, _, _, _) =>
      NewCallElsewhere(o, ch, e, maxSkew);
    case ShutdownOp(_) => ShutdownKeeps(o, ch, e, maxSkew);
    case Traffic(_, _, _, _) => SocketMeansReady(o, ch, maxSkew);
    case TimerFires(_, _, _, _, _) =>
      TimerTaken(ch, e.timer);
      if e.timer == ch.keepaliveTimer && ch.timers.pending[e.timer].callback == KeepaliveCheck {
        TimerMeansReady(o, ch, e.timer, maxSkew);
      }
      TornDownIsOver(ch.(timers := Removed(ch.timers, e.timer), connectTimer := 0), Own(ConnectTimedOut));
  }

  lemma UpAgrees(o: Config, ch: Channel, p: Pipe, e: Event, maxSkew: nat)
    requires Inv(o, ch, maxSkew) && Enabled(ch, e, maxSkew) && Agree(ch, p) && e.Connect?
    ensures Agree(Handle(o, ch, e), FlowUp(p, e)) && FlowUp(p, e).wire == p.wire + SentBy(o, ch, e)
  {
    WatchMeansConnecting(o, ch, maxSkew);
    UpSends(o, ch, e, maxSkew);
    ConnectVerdict(o, ch, e, maxSkew);
    FlowIsTight(p, e.preface);
    FlowIsTight(Flow(p, e.preface), e.flush);
    hide Inv, Core, Enabled, OnConnectProgress, SentBy, Flow, Unsent, Pump, LastRefusal;
    assert p == Pipe([], [], []);
    assert [] + SentBy(o, ch, e) == SentBy(o, ch, e);
  }

  /**
   In every run the bytes handed to the socket are those of the pipe. So the socket
   gets what the library made, in order, each byte once; whatever it did not get yet
   is waiting, and while the channel is Ready that is exactly what the session holds back.
   */
  lemma {:induction false} WireIsPipe(o: Config, events: seq<Event>, maxSkew: nat)
    requires ChannelRuns.Lawful(o, events, maxSkew)
    ensures var ch, p := ChannelRuns.Run(o, events), PipeOf(o, events);
            && WireOf(o, events) == p.wire && p.made == p.wire + p.waiting
            && (ch.phase.Ready? ==> ch.session.Some? && Unsent(ch.session.value) == p.waiting)
            && Agree(ch, p)
    decreases |events|
  {
    hide Possible, Handle, Enabled, Unsent, Flow, FlowUp, FlushEnd, SentBy;
    if events != [] {
      var front, e := events[..|events| - 1], events[|events| - 1];
      PossibleFront(o, START, events, maxSkew);
      WireIsPipe(o, front, maxSkew);
      EveryRun(o, front, maxSkew);
      hide Inv;
      var ch := ChannelRuns.Run(o, front);
      TimerIsThere(ch, e, maxSkew);
      StepAgrees(o, ch, PipeOf(o, front), e, maxSkew);
    }
  }
}
