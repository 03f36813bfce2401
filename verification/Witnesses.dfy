/**
 Runs that happen: a call that returns OK, a connect timeout, a silent peer, and a
 Shutdown from beginning to end. They show that the theorems about all runs speak of
 such runs too.
 */
module Witnesses {
  import opened Octets
  import C = CallOutcome
  import GrpcFrames
  import Status
  import opened SessionModel
  import opened TimerModel
  import opened ChannelModel
  import opened ChannelSafety
  import opened ChannelRuns
  import opened ChannelStories
  import opened ChannelGoAway
  import CallResults
  import L = EventLoop
  import Y = ChannelSystem

  // ------------------------------------------------------------ a connect timeout

  function TimeoutRun(o: Config): seq<Event> { [FirstCall(), TimerFires(1, o.connectTimeout, None, [], 0)] }

  lemma ConnectTimesOut(o: Config)
    ensures var r := ChannelRuns.Run(o, TimeoutRun(o));
            && ChannelRuns.Lawful(o, TimeoutRun(o), 0)
            && r.phase.Failed? && r.detail == ConnectTimedOut && r.results == map[1 := FailedWith(ConnectTimedOut)]
  {
    hide HandleNewCall, HandleAll, OnTimer;
    var w := TimeoutRun(o);
    RunNext(o, w, 0);
    NothingRun(o, w);
    Connects(o);
    var ch := ChannelRuns.Run(o, w[..1]);
    FiresNext(o, w, 1);
    ConnectTimerFires(o, ch);
    assert w[..2] == w;
    assert forall k :: 0 <= k < |w| ==> Enabled(ChannelRuns.Run(o, w[..k]), w[k], 0);
  }

  /** One more event of a run, when it is a timer that is pending. */
  lemma FiresNext(o: Config, w: seq<Event>, k: nat)
    requires k < |w| && w[k].TimerFires? && w[k].timer in ChannelRuns.Run(o, w[..k]).timers.pending
    ensures ChannelRuns.Run(o, w[..k + 1]) == OnTimer(o, ChannelRuns.Run(o, w[..k]), w[k])
  {
    assert w[..k + 1][..k] == w[..k];
  }

  lemma ConnectTimerFires(o: Config, ch: Channel)
    requires ch == Channel(Connecting, Unspecified, [1], {}, None, 1, 0,
                           Timers(map[1 := Timer(o.connectTimeout, ConnectTimeout)], 2), WatchConnect, map[])
    ensures var e := TimeoutRun(o)[1]; var r := OnTimer(o, ch, e);
            && Enabled(ch, e, 0)
            && r.phase.Failed? && r.detail == ConnectTimedOut && r.results == map[1 := FailedWith(ConnectTimedOut)]
  {
    assert Elements([1]) == {1};
  }

  // ------------------------------------------------------------ a silent peer

  function SilentRun(o: Config): seq<Event> {
    [FirstCall(), Handshake(), TimerFires(2, o.keepalive.keepaliveTime, None, [], 0),
     TimerFires(3, o.keepalive.keepaliveTime + o.keepalive.keepaliveTimeout, None, [], 0)]
  }

  /** A call in flight, a PING sent when the keepalive timer fires, and no answer: the second firing fails the call. */
  lemma PeerIsSilent(o: Config)
    requires o.keepalive.permitWithoutCalls && o.keepalive.keepaliveTime > 0
    ensures var pinged := ChannelRuns.Run(o, SilentRun(o)[..3]); var r := ChannelRuns.Run(o, SilentRun(o));
            && ChannelRuns.Lawful(o, SilentRun(o), 0)
            && pinged.phase.Ready? && pinged.active == {1} && pinged.session.Some?
            && pinged.session.value.pingOutstanding
            && r.phase.Failed? && r.detail == KeepaliveTimedOut && r.results == map[1 := FailedWith(KeepaliveTimedOut)]
  {
    hide HandleNewCall, OnConnectProgress, HandleAll, OnTimer;
    var w := SilentRun(o);
    RunNext(o, w, 0);
    RunNext(o, w, 1);
    NothingRun(o, w);
    Connects(o);
    BecomesReady(o);
    PingGoesOut(o);
    FiresNext(o, w, 2);
    NoAnswer(o);
    FiresNext(o, w, 3);
    assert w[..4] == w;
    assert forall k :: 0 <= k < |w| ==> Enabled(ChannelRuns.Run(o, w[..k]), w[k], 0);
  }

  function Pinged(o: Config): Channel {
    var ch, now := InFlight(o, false, 2, []), o.keepalive.keepaliveTime;
    ch.(session := Some(ch.session.value.(pingSent := now, pingOutstanding := true, pingCounter := 1)),
        keepaliveTimer := 3, timers := Timers(map[3 := Timer(now + o.keepalive.keepaliveTimeout, KeepaliveCheck)], 4))
  }

  lemma PingGoesOut(o: Config)
    requires o.keepalive.permitWithoutCalls && o.keepalive.keepaliveTime > 0
    ensures var ch, e := InFlight(o, false, 2, []), SilentRun(o)[2];
            Enabled(ch, e, 0) && OnTimer(o, ch, e) == Pinged(o)
  {
    hide Flush;
    var ch, e := InFlight(o, false, 2, []), SilentRun(o)[2];
    var f := ch.(timers := Removed(ch.timers, 2), keepaliveTimer := 0);
    assert f.timers == Timers(map[], 3);
    var m := f.(session := Some(Check(o.keepalive, ch.session.value, e.now, None).0));
    EmptyFlush(m);
    assert Rearm(o, m, 0) == Pinged(o);
  }

  lemma NoAnswer(o: Config)
    requires o.keepalive.keepaliveTime > 0
    ensures var ch, e := Pinged(o), SilentRun(o)[3]; var r := OnTimer(o, ch, e);
            && Enabled(ch, e, 0)
            && r.phase.Failed? && r.detail == KeepaliveTimedOut && r.results == map[1 := FailedWith(KeepaliveTimedOut)]
  {
    assert Elements([]) == {};
  }

  // ------------------------------------------------------------ a call that returns

  function Greeting(): seq<C.Header> {
    [C.Header(":status", "200"), C.Header("content-type", "application/grpc")]
  }

  function Answer(): seq<StreamEvent> {
    [C.ResponseHeaders(Greeting(), false), C.Data(GrpcFrames.Frame([42])), C.Trailers([C.Header("grpc-status", "0")])]
  }

  function AnswerSignals(): seq<Signal> {
    [StreamDelivers(1, Answer()[0]), StreamDelivers(1, Answer()[1]), StreamDelivers(1, Answer()[2]), StreamClosed(1, 0)]
  }

  function AnswerArrives(): Event { Traffic(true, [ReadBytes(1, 64, AnswerSignals(), None)], [], 0) }

  function OkRun(): seq<Event> { [FirstCall(), Handshake(), AnswerArrives()] }

  /** The events of the answer, as the call object hears them. */
  function Heard3(): seq<C.Event> { [Answer()[0], Answer()[1], Answer()[2]] }

  lemma AnswerIsHeard()
    ensures CallResults.OnStream(AnswerSignals(), 1) == Heard3() + [C.Close(0)]
  {
    hide GrpcFrames.Frame, Greeting;
    var s := AnswerSignals();
    assert s[..3][..2] == s[..2] && s[..2][..1] == s[..1] && s[..1][..0] == [];
    assert CallResults.OnStream(s[..1], 1) == [Answer()[0]];
    assert CallResults.OnStream(s[..2], 1) == [Answer()[0], Answer()[1]];
    assert CallResults.OnStream(s[..3], 1) == Heard3();
    assert s[..|s| - 1] == s[..3];
  }

  /** Status zero and one frame: the call is OK and returns the payload. */
  lemma AnswerIsOk(max: nat)
    requires max >= 1
    ensures var r := C.Outcome(max, Heard3() + [C.Close(0)]);
            r.Some? && r.value.code == Status.Ok && r.value.response == [42]
  {
    hide GrpcFrames.Frame, Greeting, C.Outcome;
    var es := Heard3();
    assert es[..2][..1] == es[..1] && es[..1][..0] == [];
    assert C.DataOf(es) == GrpcFrames.Frame([42]) by { AnswerData(); }
    assert C.HeardInTrailers(es, "grpc-status") == Some("0") by { AnswerStatus(); }
    assert C.OneFrame(C.DataOf(es), [42], max);
    assert C.Open(es);
    C.OkRun(max, es, 0);
    PayloadIs(C.Outcome(max, es + [C.Close(0)]).value.response);
  }

  lemma AnswerData()
    ensures C.DataOf(Heard3()) == GrpcFrames.Frame([42])
  {
    hide GrpcFrames.Frame, Greeting;
    var es := Heard3();
    assert es[..2][..1] == es[..1] && es[..1][..0] == [];
    assert C.DataOf(es[..1]) == [];
    assert C.DataOf(es[..2]) == [] + GrpcFrames.Frame([42]);
    assert C.DataOf(es) == C.DataOf(es[..2]) + [];
  }

  lemma AnswerStatus()
    ensures C.HeardInTrailers(Heard3(), "grpc-status") == Some("0")
  {
    hide GrpcFrames.Frame, Greeting;
    assert C.LastNamed([C.Header("grpc-status", "0")], "grpc-status") == Some("0");
  }

  lemma PayloadIs(m: seq<byte>)
    ensures GrpcFrames.Frame(m) == GrpcFrames.Frame([42]) ==> m == [42]
  {
    hide GrpcFrames.FramePrefix;
    var a, b := GrpcFrames.Frame(m), GrpcFrames.Frame([42]);
    assert a[5..] == m && b[5..] == [42];
  }

  /** The run up to the answer. */
  lemma AnswerComes(o: Config)
    requires o.keepalive.permitWithoutCalls
    ensures ChannelRuns.Lawful(o, OkRun(), 0)
    ensures ChannelRuns.Run(o, OkRun()[..1]).results == map[]
    ensures ChannelRuns.Run(o, OkRun()[..2]) == InFlight(o, false, 2, [])
    ensures ChannelRuns.Run(o, OkRun()) == OnSocketReady(o, InFlight(o, false, 2, []), AnswerArrives())
  {
    hide HandleNewCall, OnConnectProgress, HandleAll, OnSocketReady, AnswerSignals;
    var w := OkRun();
    RunNext(o, w, 0);
    RunNext(o, w, 1);
    RunNext(o, w, 2);
    NothingRun(o, w);
    Connects(o);
    BecomesReady(o);
    assert w[..3] == w;
    assert forall k :: 0 <= k < |w| ==> Enabled(ChannelRuns.Run(o, w[..k]), w[k], 0);
  }

  lemma OneHookRuns(ch: Channel, c: CallId, code: nat)
    ensures AfterHooks(ch, [(c, code)]) ==
            ch.(results := Complete(ch.results, c, Finished(code)), active := ch.active - {c})
  {
    assert [(c, code)][..0] == [];
  }

  lemma AnswerFinishes(o: Config)
    requires o.keepalive.permitWithoutCalls
    ensures var r := OnSocketReady(o, InFlight(o, false, 2, []), AnswerArrives());
            r.phase.Ready? && r.active == {} && r.results == map[1 := Finished(0)]
  {
    hide Flush, Answer, AfterHooks, HearAll, HooksRun, AnswerSignals;
    var ch, e := InFlight(o, false, 2, []), AnswerArrives();
    HearsAnswer(ch.session.value.(lastRead := 1));
    var m := Heard(ch, e.input[0]);
    OneHookRuns(ch.(session := m.session), 1, 0);
    OneHookRuns(ch.(session := Some(Receive(ch.session.value, 1, 64, AnswerSignals(), None))), 1, 0);
    assert m.active == {} && m.results == map[1 := Finished(0)];
    assert e.input[1..] == [] && DrainSocket(m, []) == m;
    EmptyFlush(m);
  }

  lemma HearsAnswer(s: Session)
    requires s.streams == map[1 := 1]
    ensures HearAll(s, AnswerSignals()) == s.(streams := map[], activeStreams := s.activeStreams - 1)
    ensures HooksRun(s, AnswerSignals()) == [(1, 0)]
  {
    hide Answer;
    var a := AnswerSignals();
    assert a[..3][..2] == a[..2] && a[..2][..1] == a[..1] && a[..1][..0] == [] && a[..|a| - 1] == a[..3];
    assert HearAll(s, a[..1]) == s && HooksRun(s, a[..1]) == [];
    assert HearAll(s, a[..2]) == s && HooksRun(s, a[..2]) == [];
    assert HearAll(s, a[..3]) == s && HooksRun(s, a[..3]) == [];
  }

  lemma EmptyFlushTells(ch: Channel, c: CallId)
    ensures CallResults.ToldByFlush(ch, [], c) == []
  {
    if ch.session.Some? { assert RefillHooks(ch.session.value, []) == []; }
  }

  lemma LogNext(o: Config, w: seq<Event>, k: nat, c: CallId, lost: string)
    requires k < |w| && !w[k].ShutdownOp?
    ensures var ch, r := ChannelRuns.Run(o, w[..k]), ChannelRuns.Run(o, w[..k + 1]);
            CallResults.Log(o, w[..k + 1], c, lost) ==
            CallResults.Log(o, w[..k], c, lost)
            + (CallResults.ToldByEvent(o, ch, w[k], c) + CallResults.FailedNow(ch, r, c, lost))
  {
    hide ChannelRuns.Run, CallResults.ToldByEvent, CallResults.FailedNow;
    assert w[..k + 1][..k] == w[..k];
  }

  lemma AnswerIsLogged(o: Config, lost: string)
    requires o.keepalive.permitWithoutCalls
    ensures CallResults.Log(o, OkRun(), 1, lost) == Heard3() + [C.Close(0)]
  {
    hide ChannelRuns.Run, CallResults.ToldByFlush, CallResults.ToldByReads, CallResults.BeforeFlush, SubmitCall,
      DrainSocket, AnswerSignals, Heard3, InFlight, OnSocketReady, CallResults.Log;
    var w := OkRun();
    AnswerComes(o);
    AnswerFinishes(o);
    LogNext(o, w, 0, 1, lost);
    LogNext(o, w, 1, 1, lost);
    LogNext(o, w, 2, 1, lost);
    assert w[..3] == w;
    EmptyFlushTells(SubmitCall(ChannelRuns.Run(o, w[..0]), 1, 1), 1);
    EmptyFlushTells(CallResults.BeforeFlush(o, ChannelRuns.Run(o, w[..1]), w[1]), 1);
    var ch := InFlight(o, false, 2, []);
    EmptyFlushTells(DrainSocket(ch, w[2].input), 1);
    NothingHappened(o, w, lost);
    ReadsAnswer(o, ch, w);
  }

  lemma NothingHappened(o: Config, w: seq<Event>, lost: string)
    ensures CallResults.Log(o, w[..0], 1, lost) == []
    ensures ChannelRuns.Run(o, w[..0]).results == map[]
    ensures forall o: Config :: InFlight(o, false, 2, []).results == map[]
  {
    assert w[..0] == [];
  }

  lemma InFlightIsSound(o: Config)
    requires o.keepalive.permitWithoutCalls
    ensures Core(InFlight(o, false, 2, []))
  {
    hide Core, Settled, HandleAll, AnswerSignals, Possible;
    AnswerComes(o);
    PossiblePrefix(o, START, OkRun(), 0, 2);
    EveryRun(o, OkRun()[..2], 0);
  }

  lemma ReadsAnswer(o: Config, ch: Channel, w: seq<Event>)
    requires o.keepalive.permitWithoutCalls && ch == InFlight(o, false, 2, []) && w == OkRun()
    ensures CallResults.ToldByReads(ch, w[2].input, 1) == Heard3() + [C.Close(0)]
  {
    InFlightIsSound(o);
    hide AnswerSignals, Heard3, CallResults.ToldByReads, CallResults.OnStream, CallResults.SignalsOf, Core;
    CallResults.ReadsTell(ch, w[2].input, 1);
    AnswerRead();
    AnswerIsHeard();
  }

  lemma AnswerRead()
    ensures CallResults.SignalsOf(AnswerArrives().input) == AnswerSignals()
  {
    hide AnswerSignals;
    assert AnswerArrives().input[1..] == [] && AnswerSignals() + [] == AnswerSignals();
  }

  /** In this run the first call returns OK with the server's payload. */
  lemma CallReturnsOk(o: Config, max: nat, lost: string)
    requires o.keepalive.permitWithoutCalls && max >= 1
    ensures var r := ChannelRuns.Run(o, OkRun());
            var result := C.Outcome(max, CallResults.Log(o, OkRun(), 1, lost));
            && ChannelRuns.Lawful(o, OkRun(), 0)
            && r.phase.Ready? && r.active == {} && r.results == map[1 := Finished(0)]
            && result.Some? && result.value.code == Status.Ok && result.value.response == [42]
  {
    hide *;
    AnswerComes(o);
    AnswerFinishes(o);
    AnswerIsOk(max);
    AnswerIsLogged(o, lost);
  }

  // ------------------------------------------------------------ a Shutdown

  /** One more step of a run of the whole system. */
  lemma More(o: Config, w: seq<Y.Step>, sys: Y.System, step: Y.Step) returns (v: seq<Y.Step>)
    requires Y.Run(o, w, 0) == Some(sys) && Y.Enabled(sys, step, 0)
    ensures v == w + [step] && Y.Run(o, v, 0) == Some(Y.Do(o, sys, step, 0))
  {
    hide Y.Do, Y.Enabled;
    v := w + [step];
    assert v[..|v| - 1] == w;
  }

  lemma MoreLoop(o: Config, w: seq<Y.Step>, sys: Y.System, step: L.Step<Y.Job>, loop: L.State<Y.Job>)
    returns (v: seq<Y.Step>)
    requires Y.Run(o, w, 0) == Some(sys)
    requires Y.LoopOnly(step) && L.Enabled(sys.loop, step) && loop == L.Do(sys.loop, step)
    ensures Y.Run(o, v, 0) == Some(sys.(loop := loop))
  {
    hide Y.Run, L.Do, L.Enabled, Y.LoopOnly;
    v := More(o, w, sys, Y.LoopStep(step));
  }

  /** The loop while one thread, number 0 among those in Shutdown, shuts down. */
  function LoopAt(pc: L.Pc<Y.Job>, stop: bool, counter: nat, owing: set<nat>): L.State<Y.Job> {
    L.State([], stop, stop, if stop then Some(1) else None, counter, owing, {}, pc, [Y.RunShutdown], [Y.RunShutdown])
  }

  function Down(): Channel { START.(phase := ShutDown) }

  function SystemAt(loop: L.State<Y.Job>, shutter: Y.Shutter): Y.System {
    Y.System(loop, Down(), map[], map[], true, shutter, 0)
  }

  lemma DownIs(o: Config)
    ensures Handle(o, START, ShutdownOp([])) == Down()
  {
    assert Elements([]) == {};
    assert CompleteAll(map[], {}, FailedWith(ChannelShutDown)) == map[];
  }

  /** The op is posted and the loop notified. */
  lemma ShutdownPosts(o: Config) returns (w: seq<Y.Step>, sys: Y.System)
    ensures Y.Run(o, w, 0) == Some(sys)
    ensures sys == Y.System(L.Init<Y.Job>().(ops := [Y.RunShutdown], accepted := [Y.RunShutdown], counter := 1),
                            START, map[], map[], true, Y.AwaitsDone(0), 0)
  {
    hide Y.Run;
    w := Nothing(o);
    w := More(o, w, Y.START_SYSTEM, Y.EnterShutdown(0));
    var s1 := Y.START_SYSTEM.(shutdownDone := true, shutter := Y.Entered(0));
    w := More(o, w, s1, Y.PostShutdown);
    var l := L.Init<Y.Job>().(ops := [Y.RunShutdown], accepted := [Y.RunShutdown], owing := {1});
    var s2 := s1.(loop := l, shutter := Y.PostedOp(0));
    assert Y.Do(o, s1, Y.PostShutdown, 0) == s2;
    w := More(o, w, s2, Y.NotifyShutdown);
    sys := s2.(loop := l.(counter := 1, owing := {}), shutter := Y.AwaitsDone(0));
    assert Y.Do(o, s2, Y.NotifyShutdown, 0) == sys;
  }

  lemma Nothing(o: Config) returns (w: seq<Y.Step>)
    ensures w == [] && Y.Run(o, w, 0) == Some(Y.START_SYSTEM)
  {
    w := [];
  }

  /** The loop takes the op and runs it. */
  lemma ShutdownRuns(o: Config) returns (w: seq<Y.Step>)
    ensures Y.Run(o, w, 0) == Some(SystemAt(LoopAt(L.Running([], false), false, 1, {}), Y.AwaitsDone(0)))
  {
    hide Y.Run, Handle;
    var sys;
    w, sys := ShutdownPosts(o);
    var took := sys.loop.(pc := L.Running([Y.RunShutdown], false), ops := []);
    w := MoreLoop(o, w, sys, L.TakeQueue, took);
    DownIs(o);
    w := More(o, w, sys.(loop := took), Y.LoopRunsOp(ShutdownOp([])));
    assert [Y.RunShutdown][1..] == [] && [] + [Y.RunShutdown] == [Y.RunShutdown];
  }

  /** Shutdown sees that, asks the loop to stop and notifies it. */
  lemma ShutdownStops(o: Config) returns (w: seq<Y.Step>)
    ensures Y.Run(o, w, 0) == Some(SystemAt(LoopAt(L.Running([], false), true, 2, {}), Y.Joining(0)))
  {
    hide Y.Run;
    var run: L.Pc<Y.Job> := L.Running([], false);
    w := ShutdownRuns(o);
    w := More(o, w, SystemAt(LoopAt(run, false, 1, {}), Y.AwaitsDone(0)), Y.SeeDone);
    var must := SystemAt(LoopAt(run, false, 1, {}), Y.MustStop(0));
    w := More(o, w, must, Y.RequestStop);
    var stopping := SystemAt(LoopAt(run, true, 1, {1}), Y.Stopping(0));
    assert Y.Do(o, must, Y.RequestStop, 0) == stopping;
    w := More(o, w, stopping, Y.NotifyStop);
    assert Y.Do(o, stopping, Y.NotifyStop, 0) == SystemAt(LoopAt(run, true, 2, {}), Y.Joining(0));
  }

  /** The loop finishes its batch, wakes up, drains the eventfd, takes the empty queue and exits. */
  lemma LoopExits(o: Config) returns (w: seq<Y.Step>)
    ensures Y.Run(o, w, 0) == Some(SystemAt(LoopAt(L.Exited, true, 0, {}), Y.Joining(0)))
  {
    hide Y.Run;
    w := ShutdownStops(o);
    w := MoreLoop(o, w, SystemAt(LoopAt(L.Running([], false), true, 2, {}), Y.Joining(0)), L.BatchDone,
                  LoopAt(L.Preparing, true, 2, {}));
    w := MoreLoop(o, w, SystemAt(LoopAt(L.Preparing, true, 2, {}), Y.Joining(0)), L.Prepare,
                  LoopAt(L.Polling, true, 2, {}));
    w := MoreLoop(o, w, SystemAt(LoopAt(L.Polling, true, 2, {}), Y.Joining(0)), L.PollReturns,
                  LoopAt(L.Woken(true), true, 2, {}));
    w := MoreLoop(o, w, SystemAt(LoopAt(L.Woken(true), true, 2, {}), Y.Joining(0)), L.Drain,
                  LoopAt(L.Woken(false), true, 0, {}));
    w := MoreLoop(o, w, SystemAt(LoopAt(L.Woken(false), true, 0, {}), Y.Joining(0)), L.Dispatch,
                  LoopAt(L.Top, true, 0, {}));
    w := MoreLoop(o, w, SystemAt(LoopAt(L.Top, true, 0, {}), Y.Joining(0)), L.TakeQueue,
                  LoopAt(L.Running([], true), true, 0, {}));
    w := MoreLoop(o, w, SystemAt(LoopAt(L.Running([], true), true, 0, {}), Y.Joining(0)), L.BatchDone,
                  LoopAt(L.Exited, true, 0, {}));
  }

  /** From a new channel: one thread calls Shutdown, the loop runs its op, is woken and exits, and Shutdown returns. */
  lemma ShutdownReturns(o: Config) returns (w: seq<Y.Step>, sys: Y.System)
    ensures Y.Run(o, w, 0) == Some(sys)
    ensures sys.shutdowns == 1 && sys.loop.pc.Exited? && sys.ch.phase.ShutDown?
  {
    hide Y.Run;
    w := LoopExits(o);
    var gone := SystemAt(LoopAt(L.Exited, true, 0, {}), Y.Joining(0));
    w := More(o, w, gone, Y.JoinLoop);
    var leaving := gone.(loop := gone.loop.(returned := {1}), shutter := Y.Leaving(0));
    assert Y.Do(o, gone, Y.JoinLoop, 0) == leaving;
    w := More(o, w, leaving, Y.LeaveShutdown);
    sys := Y.Do(o, leaving, Y.LeaveShutdown, 0);
  }
}
