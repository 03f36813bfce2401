/**
 The channel object as it runs on the event thread: fields updated in place,
 loops over calls, hooks and socket turns. It owns a timer heap and, while Ready,
 one session. Every handler is proved to do what `ChannelModel` says.
 */
module ChannelImpls {
  import opened Octets
  import opened SessionModel
  import opened TimerModel
  import opened TimerHeaps
  import opened Http2Sessions
  import opened ChannelModel
  import M = ChannelModel
  import ChannelSafety
  import ChannelRuns
  import opened ChannelOutput
  import ChannelWire

  class ChannelImpl {
    const config: Config
    const loopTimers: TimerHeap<ChannelTimer>
    var phase: Phase
    var detail: Reason
    var pendingCalls: seq<CallId>
    var activeCalls: set<CallId>
    var h2: Http2Session?
    var connectTimer: nat
    var keepaliveTimer: nat
    var watch: Watch
    var results: map<CallId, Completion>

    ghost function Owned(): set<object>
      reads this
    {
      {loopTimers} + if h2 == null then {} else {h2}
    }

    ghost predicate Valid()
      reads this, Owned()
    {
      && loopTimers.Valid()
      && (h2 != null ==> h2.options == config.keepalive)
    }

    ghost function Model(): Channel
      reads this, Owned()
    {
      Channel(phase, detail, pendingCalls, activeCalls, if h2 == null then None else Some(h2.Model()),
              connectTimer, keepaliveTimer, loopTimers.Model(), watch, results)
    }

    constructor (config: Config)
      ensures Valid() && Model() == START && this.config == config && fresh(Owned())
    {
      this.config := config;
      loopTimers := new TimerHeap<ChannelTimer>();
      phase, detail := Idle, Unspecified;
      pendingCalls, activeCalls, h2 := [], {}, null;
      connectTimer, keepaliveTimer, watch, results := 0, 0, NoWatch, map[];
    }

    // ---------------------------------------------------------- completing calls

    method FailLocal(c: CallId, how: Completion)
      modifies `results
      ensures results == Complete(old(results), c, how)
    {
      if c in results { return; }
      results := results[c := how];
    }

    method FailActive(cs: set<CallId>, how: Completion)
      modifies `results
      ensures results == CompleteAll(old(results), cs, how)
    {
      hide Complete, CompleteAll;
      var left := cs;
      NoneCompleted(results, how);
      assert cs - left == {};
      while left != {}
        invariant left <= cs
        invariant results == CompleteAll(old(results), cs - left, how)
        decreases left
      {
        var c :| c in left;
        CompletedOneMore(old(results), cs - left, c, how);
        assert (cs - left) + {c} == cs - (left - {c});
        FailLocal(c, how);
        left := left - {c};
      }
      assert cs - left == cs;
    }

    method FailPending(cs: seq<CallId>, how: Completion)
      modifies `results
      ensures results == CompleteAll(old(results), Elements(cs), how)
    {
      hide Complete, CompleteAll, Elements;
      NoneCompleted(results, how);
      for i := 0 to |cs|
        invariant results == CompleteAll(old(results), Elements(cs[..i]), how)
      {
        ElementsStep(cs, i);
        CompletedOneMore(old(results), Elements(cs[..i]), cs[i], how);
        FailLocal(cs[i], how);
      }
      assert cs[..|cs|] == cs;
    }

    /** The wrapped on_close hooks: each completes its call and drops it. */
    method RunHooks(hooks: seq<(CallId, nat)>)
      requires Valid()
      modifies `results, `activeCalls
      ensures Model() == AfterHooks(old(Model()), hooks)
    {
      for i := 0 to |hooks|
        invariant Valid() && Model() == AfterHooks(old(Model()), hooks[..i])
      {
        assert hooks[..i + 1][..i] == hooks[..i];
        var c, code := hooks[i].0, hooks[i].1;
        if c !in results { results := results[c := Finished(code)]; }
        activeCalls := activeCalls - {c};
      }
      assert hooks[..|hooks|] == hooks;
    }

    // ---------------------------------------------------------- teardown

    method CancelTimersAndUnwatch()
      requires Valid()
      modifies this, loopTimers
      ensures Valid() && Owned() == old(Owned()) && Model() == WithoutTimers(old(Model()))
    {
      if connectTimer != 0 {
        var ok := loopTimers.Cancel(connectTimer);
        connectTimer := 0;
      }
      if keepaliveTimer != 0 {
        var ok := loopTimers.Cancel(keepaliveTimer);
        keepaliveTimer := 0;
      }
      watch := NoWatch;
    }

    /** Every active and every queued call gets the same result; both containers are emptied first. */
    method FailEverything(how: Completion)
      requires Valid()
      modifies `activeCalls, `pendingCalls, `results
      ensures Model() == old(Model()).(active := {}, pending := [],
                                       results := CompleteAll(old(results),
                                           old(activeCalls) + Elements(old(pendingCalls)), how))
    {
      hide CompleteAll;
      var active := activeCalls;
      activeCalls := {};
      FailActive(active, how);
      var pending := pendingCalls;
      pendingCalls := [];
      FailPending(pending, how);
      CompletedTwice(old(results), active, Elements(pending), how);
    }

    /** `reference` may point into the session, which is gone by the time the calls are failed. */
    method TearDown(reference: Detail)
      requires Valid()
      modifies this, Owned()
      ensures Valid() && Owned() <= old(Owned()) && Model() == M.TearDown(old(Model()), reference)
    {
      hide CompleteAll, WithoutTimers;
      if phase.Over() { return; }
      ghost var before := Model();
      phase, detail := Failed, reference.Said();
      assert Model() == before.(phase := Failed, detail := reference.Said());
      CancelTimersAndUnwatch();
      WithoutTimersLocal(before, Failed, reference.Said());
      ghost var cut := Model();
      h2 := null;
      assert Model() == cut.(session := None);
      FailEverything(reference.AfterReset());
    }

    // ---------------------------------------------------------- socket traffic

    /** The write loop; `sent` is what the socket took, turn by turn, of the bytes offered to it. */
    method FlushOutput(script: seq<FlushTurn>) returns (sent: seq<byte>)
      requires Valid()
      modifies this, Owned()
      ensures Valid() && Owned() <= old(Owned()) && Model() == Flush(old(Model()), script)
      ensures sent == FlushSent(old(Model()), script)
    {
      hide AfterHooks, Refill, RefillHooks, Offered, Consume, Unsent, Pump, M.TearDown;
      sent := [];
      var i := 0;
      assert [] + FlushSent(Model(), script) == FlushSent(Model(), script);
      while phase == Ready && h2 != null
        invariant i <= |script| && Valid() && Owned() == old(Owned())
        invariant Flush(old(Model()), script) == Flush(Model(), script[i..])
        invariant sent + FlushSent(Model(), script[i..]) == FlushSent(old(Model()), script)
        decreases |script| - i
      {
        assert script[i..] == [] || script[i..][1..] == script[i + 1..];
        var turn := if i < |script| then script[i] else FlushTurn([], WriteBlocked);
        assert turn == Turn(script[i..]);
        ghost var before := Model();
        SentInTurn(before, script[i..]);
        var view, hooks := h2.PendingOutput(turn.productions);
        assert Model() == before.(session := Some(Refill(before.session.value, turn.productions)));
        RunHooks(hooks);
        assert Model() == Produced(before, turn.productions);
        HooksLeaveSession(before.(session := Some(Refill(before.session.value, turn.productions))), hooks);
        if view == [] {
          assert sent + [] == sent;
          if h2.error != NoError { TearDown(OfSession(h2.error)); }
          return;
        }
        match turn.write
        case WriteBlocked =>
          assert sent + [] == sent;
          return;
        case WriteError(text) =>
          assert sent + [] == sent;
          TearDown(Own(SocketFailed(text)));
          return;
        case Wrote(n) =>
          ghost var next := Consume(h2.Model(), n);
          Assoc(sent, view[..Taken(view, n)], FlushSent(Model().(session := Some(next)), script[i + 1..]));
          h2.ConsumeOutput(n);
          sent := sent + view[..Taken(view, n)];
          i := i + 1;
      }
      assert sent + [] == sent;
    }

    method DrainSocket(input: seq<ReadOutcome>)
      requires Valid()
      modifies this, Owned()
      ensures Valid() && Owned() <= old(Owned()) && Model() == M.DrainSocket(old(Model()), input)
    {
      hide AfterHooks, Receive, HooksRun, M.TearDown;
      var i := 0;
      while phase == Ready && h2 != null && i < |input|
        invariant i <= |input| && Valid() && Owned() == old(Owned())
        invariant M.DrainSocket(old(Model()), input) == M.DrainSocket(Model(), input[i..])
        decreases |input| - i
      {
        assert input[i..][0] == input[i] && input[i..][1..] == input[i + 1..];
        match input[i]
        case ReadBlocked => return;
        case ReadEof =>
          TearDown(Own(ClosedByServer));
          return;
        case ReadError(text) =>
          TearDown(Own(SocketFailed(text)));
          return;
        case ReadBytes(now, len, signals, failure) =>
          ghost var before := Model();
          var ok, hooks := h2.ReceiveBytes(now, len, signals, failure);
          ghost var heard := before.(session := Some(Receive(before.session.value, now, len, signals, failure)));
          assert Model() == heard;
          RunHooks(hooks);
          assert Model() == Heard(before, input[i]);
          HooksLeaveSession(heard, hooks);
          if !ok {
            TearDown(OfSession(h2.error));
            return;
          }
          i := i + 1;
      }
    }

    // ---------------------------------------------------------- keepalive

    method RearmKeepalive(skew: nat)
      requires Valid()
      modifies this, loopTimers
      ensures Valid() && Owned() == old(Owned()) && Model() == Rearm(config, old(Model()), skew)
    {
      if phase != Ready || h2 == null { return; }
      if keepaliveTimer != 0 {
        var ok := loopTimers.Cancel(keepaliveTimer);
        keepaliveTimer := 0;
      }
      var deadline := h2.NextKeepaliveDeadline();
      if deadline.None? { return; }
      keepaliveTimer := loopTimers.Add(deadline.value + skew, KeepaliveCheck);
    }

    // ---------------------------------------------------------- handlers

    method SubmitCall(c: CallId, id: int)
      requires Valid()
      modifies this, Owned()
      ensures Valid() && Owned() == old(Owned()) && Model() == M.SubmitCall(old(Model()), c, id)
    {
      hide Submit, Complete;
      if phase != Ready || h2 == null {
        FailLocal(c, FailedWith(if phase == Failed then detail else ChannelNotReady));
        return;
      }
      var streamId := h2.SubmitUnaryRequest(c, id);
      if streamId < 0 {
        FailLocal(c, FailedWith(SessionFailed(h2.error)));
        return;
      }
      activeCalls := activeCalls + {c};
    }

    method StartConnecting(now: int, refusal: Option<string>)
      requires Valid()
      modifies this, Owned()
      ensures Valid() && Owned() <= old(Owned()) && Model() == M.StartConnecting(config, old(Model()), now, refusal)
    {
      hide M.TearDown;
      phase := Connecting;
      connectTimer := loopTimers.Add(now + config.connectTimeout, ConnectTimeout);
      if refusal.Some? {
        TearDown(Own(SocketFailed(refusal.value)));
        return;
      }
      watch := WatchConnect;
    }

    method HandleNewCall(e: Event) returns (sent: seq<byte>)
      requires Valid() && e.NewCall?
      modifies this, Owned()
      ensures Valid() && Owned() <= old(Owned()) && Model() == M.HandleNewCall(config, old(Model()), e)
      ensures sent == SentBy(config, old(Model()), e)
    {
      hide M.StartConnecting, M.SubmitCall, Flush, FlushSent;
      sent := [];
      match phase
      case ShutDown => FailLocal(e.call, FailedWith(ChannelShutDown));
      case Failed => FailLocal(e.call, FailedWith(detail));
      case Idle =>
        pendingCalls := pendingCalls + [e.call];
        StartConnecting(e.now, e.refusal);
      case Connecting =>
        pendingCalls := pendingCalls + [e.call];
      case Ready =>
        SubmitCall(e.call, e.id);
        sent := FlushOutput(e.flush);
    }

    /** The queued calls, in order. */
    method SubmitPending(pending: seq<CallId>, ids: seq<int>)
      requires Valid()
      modifies this, Owned()
      ensures Valid() && Owned() == old(Owned()) && Model() == SubmitAll(old(Model()), pending, ids)
    {
      hide M.SubmitCall, Complete;
      for i := 0 to |pending|
        invariant Valid() && Owned() == old(Owned()) && Model() == SubmitAll(old(Model()), pending[..i], ids)
      {
        assert pending[..i + 1][..i] == pending[..i];
        if phase != Ready {
          FailLocal(pending[i], FailedWith(detail));
        } else {
          SubmitCall(pending[i], if i < |ids| then ids[i] else -1);
        }
      }
      assert pending[..|pending|] == pending;
    }

    method StartSession(e: Event) returns (sent: seq<byte>)
      requires Valid() && e.Connect? && phase == Connecting && h2 == null
      modifies this, Owned()
      ensures Valid() && fresh(Owned() - old(Owned())) && Model() == M.StartSession(config, old(Model()), e)
      ensures sent == if e.setupFailure.Some? then [] else SentUp(config, old(Model()), e)
    {
      hide M.TearDown, SessionUp, SentUp;
      sent := [];
      ghost var before := Model();
      h2 := new Http2Session(config.keepalive, e.now, e.setupFailure);
      if !h2.live {
        NoSessionNeeded(before, h2.Model(), OfSession(h2.error));
        TearDown(OfSession(h2.error));
        return;
      }
      sent := BringUp(e);
    }

    /** Watches the socket, sends the preface, arms keepalive and submits the queue. */
    method BringUp(e: Event) returns (sent: seq<byte>)
      requires Valid() && e.Connect? && h2 != null && h2.Model() == SessionModel.Init(e.now)
      modifies this, Owned()
      ensures Valid() && Owned() <= old(Owned())
      ensures Model() == SessionUp(config, old(Model()).(session := None), e)
      ensures sent == SentUp(config, old(Model()).(session := None), e)
    {
      hide Flush, Rearm, SubmitAll, Pump, Unsent;
      ghost var before := Model();
      watch := WatchSession;
      phase := Ready;
      assert Model() == before.(session := Some(SessionModel.Init(e.now)), watch := WatchSession, phase := Ready);
      sent := FlushOutput(e.preface);
      RearmKeepalive(e.skew);
      var pending := pendingCalls;
      pendingCalls := [];
      SubmitPending(pending, e.ids);
      ghost var first := sent;
      assert first + [] == first;
      if phase == Ready {
        var more := FlushOutput(e.flush);
        sent := sent + more;
      }
    }

    method OnConnectProgress(e: Event) returns (sent: seq<byte>)
      requires Valid() && e.Connect? && phase == Connecting && h2 == null
      modifies this, Owned()
      ensures Valid() && fresh(Owned() - old(Owned())) && Model() == M.OnConnectProgress(config, old(Model()), e)
      ensures sent == SentBy(config, old(Model()), e)
    {
      hide M.TearDown, M.StartSession, SentUp;
      sent := [];
      if e.outcome == InProgress { return; }
      ghost var before := Model();
      if connectTimer != 0 {
        var ok := loopTimers.Cancel(connectTimer);
        connectTimer := 0;
      }
      assert Model() == before.(timers := Cancelled(before.timers, before.connectTimer), connectTimer := 0);
      if e.outcome == Connected {
        sent := StartSession(e);
      } else {
        TearDown(Own(SocketFailed(e.outcome.text)));
      }
    }

    method OnSocketReady(e: Event) returns (sent: seq<byte>)
      requires Valid() && e.Traffic?
      modifies this, Owned()
      ensures Valid() && Owned() <= old(Owned()) && Model() == M.OnSocketReady(config, old(Model()), e)
      ensures sent == SentBy(config, old(Model()), e)
    {
      hide M.DrainSocket, Flush, Rearm, Pump, Unsent;
      sent := [];
      if e.readable { DrainSocket(e.input); }
      if phase == Ready { sent := FlushOutput(e.flush); }
      if phase == Ready { RearmKeepalive(e.skew); }
    }

    method OnTimer(e: Event) returns (sent: seq<byte>)
      requires Valid() && e.TimerFires? && e.timer in loopTimers.pending
      modifies this, Owned()
      ensures Valid() && Owned() <= old(Owned()) && Model() == M.OnTimer(config, old(Model()), e)
      ensures sent == SentBy(config, old(Model()), e)
    {
      hide M.TearDown, M.OnKeepalive, FlushSent, Check;
      sent := [];
      ghost var before := Model();
      var kind := loopTimers.callbacks[e.timer];
      assert kind == before.timers.pending[e.timer].callback;
      var ok := loopTimers.Cancel(e.timer);
      assert Model() == before.(timers := Removed(before.timers, e.timer));
      match kind
      case ConnectTimeout =>
        connectTimer := 0;
        TearDown(Own(ConnectTimedOut));
      case KeepaliveCheck =>
        keepaliveTimer := 0;
        SentAside(config, before, Model(), e);
        sent := OnKeepalive(e);
    }

    method OnKeepalive(e: Event) returns (sent: seq<byte>)
      requires Valid() && e.TimerFires?
      modifies this, Owned()
      ensures Valid() && Owned() <= old(Owned()) && Model() == M.OnKeepalive(config, old(Model()), e)
      ensures sent == SentByKeepalive(config, old(Model()), e)
    {
      hide M.TearDown, Flush, Rearm, Check, FlushSent;
      sent := [];
      if phase != Ready || h2 == null { return; }
      ghost var before := Model();
      var action := h2.CheckKeepalive(e.now, e.refusal);
      assert Model() == before.(session := Some(Check(config.keepalive, before.session.value, e.now, e.refusal).0));
      if action == Dead {
        TearDown(Own(KeepaliveTimedOut));
        return;
      }
      sent := FlushOutput(e.flush);
      RearmKeepalive(e.skew);
    }

    // ---------------------------------------------------------- shutdown

    method DoShutdown(e: Event) returns (sent: seq<byte>)
      requires Valid() && e.ShutdownOp?
      modifies this, Owned()
      ensures Valid() && Owned() <= old(Owned()) && Model() == M.DoShutdown(old(Model()), e)
      ensures sent == SentAtShutdown(old(Model()), e)
    {
      hide CompleteAll, WithoutTimers, AfterHooks, Farewell, Terminate, Pump, Unsent;
      sent := [];
      if phase == ShutDown { return; }
      ghost var before := Model();
      var wasReady := phase == Ready && h2 != null;
      phase := ShutDown;
      assert Model() == before.(phase := ShutDown);
      FailEverything(FailedWith(ChannelShutDown));
      ghost var failed := Model();
      CancelTimersAndUnwatch();
      WithoutTimersAside(before, ShutDown, failed.results);
      ghost var closed := Model();
      if wasReady {
        h2.TerminateSession();
        sent := SayFarewell(e.flush);
        HooksIgnoreSession(closed, Some(Terminate(before.session.value)),
            Farewell(Terminate(before.session.value), e.flush));
      } else {
        ChannelRuns.NoHooks(closed);
      }
      h2 := null;
    }

    /** One non-blocking flush pass after GOAWAY was queued; no error matters any more. */
    method SayFarewell(script: seq<FlushTurn>) returns (sent: seq<byte>)
      requires Valid() && h2 != null
      modifies this, h2
      ensures Valid() && h2 == old(h2)
      ensures var hooks := Farewell(old(h2.Model()), script);
              Model() == AfterHooks(old(Model()), hooks).(session := Some(h2.Model()))
      ensures sent == if old(h2.live) then Pump(Unsent(old(h2.Model())), script).wire else []
    {
      hide Refill, RefillHooks, Offered, Consume, Unsent, Pump;
      var i := 0;
      sent := [];
      ghost var ran: seq<(CallId, nat)> := [];
      ChannelRuns.NoHooks(Model());
      ghost var live := h2.live;
      assert [] + Pump(Unsent(h2.Model()), script).wire == Pump(Unsent(h2.Model()), script).wire;
      while true
        invariant i <= |script| && Valid() && h2 == old(h2) && h2.live == live
        invariant Farewell(old(h2.Model()), script) == ran + Farewell(h2.Model(), script[i..])
        invariant Model() == AfterHooks(old(Model()), ran).(session := Some(h2.Model()))
        invariant live ==>
                    sent + Pump(Unsent(h2.Model()), script[i..]).wire == Pump(Unsent(old(h2.Model())), script).wire
        invariant !live ==> sent == []
        decreases |script| - i
      {
        assert script[i..] == [] || script[i..][1..] == script[i + 1..];
        var turn := if i < |script| then script[i] else FlushTurn([], WriteBlocked);
        assert turn == Turn(script[i..]);
        ghost var before := h2.Model();
        WireInTurn(before, script[i..]);
        var view, hooks := h2.PendingOutput(turn.productions);
        RunHooks(hooks);
        HooksAfterHooks(old(Model()), ran, hooks, Some(h2.Model()));
        if view == [] || !turn.write.Wrote? {
          assert sent + [] == sent;
          return;
        }
        Assoc(ran, hooks, Farewell(Consume(h2.Model(), turn.write.n), script[i + 1..]));
        Assoc(sent, view[..Taken(view, turn.write.n)],
              Pump(Unsent(Consume(h2.Model(), turn.write.n)), script[i + 1..]).wire);
        h2.ConsumeOutput(turn.write.n);
        sent := sent + view[..Taken(view, turn.write.n)];
        ran := ran + hooks;
        i := i + 1;
      }
    }

    /** Whatever the loop dispatches. */
    method HandleEvent(e: Event) returns (sent: seq<byte>)
      requires Valid()
      requires e.TimerFires? ==> e.timer in loopTimers.pending
      requires e.Connect? ==> phase == Connecting && h2 == null
      modifies this, Owned()
      ensures Valid() && fresh(Owned() - old(Owned())) && Model() == Handle(config, old(Model()), e)
      ensures sent == SentBy(config, old(Model()), e)
    {
      hide SentUp, SentByKeepalive, FlushSent, M.HandleNewCall, M.DoShutdown, M.OnConnectProgress, M.OnSocketReady,
        M.OnTimer;
      match e
      case NewCall(_, _, _, _, _) => sent := HandleNewCall(e);
      case ShutdownOp(_) => sent := DoShutdown(e);
      case Connect(_, _, _, _, _, _, _) => sent := OnConnectProgress(e);
      case Traffic(_, _, _, _) => sent := OnSocketReady(e);
      case TimerFires(_, _, _, _, _) => sent := OnTimer(e);
    }
  }

  /** One turn of a flush: what the socket takes, then what the rest of the flush sends. */
  lemma WireInTurn(s: Session, script: seq<FlushTurn>)
    ensures var turn := Turn(script); var view := Offered(s, turn.productions);
            if !s.live then view == []
            else if view == [] || !turn.write.Wrote? || script == [] then Pump(Unsent(s), script).wire == []
            else var next := Consume(Refill(s, turn.productions), turn.write.n);
                 next.live && Pump(Unsent(s), script).wire ==
                              view[..Taken(view, turn.write.n)] + Pump(Unsent(next), script[1..]).wire
  {
    hide Refill, Consume, Unsent, Pump;
    var turn := Turn(script);
    if s.live {
      if Offered(s, turn.productions) == [] || !turn.write.Wrote? || script == [] {
        PumpStops(s, script);
      } else {
        PumpGoesOn(s, script);
      }
    }
  }

  lemma SentInTurn(ch: Channel, script: seq<FlushTurn>)
    requires ch.phase == Ready && ch.session.Some?
    ensures var s, turn := ch.session.value, Turn(script); var view := Offered(s, turn.productions);
            if view == [] || !turn.write.Wrote? || script == [] then FlushSent(ch, script) == []
            else var next := Consume(Refill(s, turn.productions), turn.write.n);
                 forall m: Channel :: m.phase == Ready && m.session == Some(next) ==>
                   FlushSent(ch, script) == view[..Taken(view, turn.write.n)] + FlushSent(m, script[1..])
  {
    hide Refill, Consume, Unsent, Pump, Offered;
    WireInTurn(ch.session.value, script);
  }

  lemma SentAside(o: Config, ch: Channel, f: Channel, e: Event)
    requires e.TimerFires? && f.session == ch.session && f.phase == ch.phase
    ensures SentByKeepalive(o, f, e) == SentByKeepalive(o, ch, e)
  {
    hide Check, Pump, Unsent;
  }

  /** Hooks do not look at the session. */
  lemma {:induction false} HooksLeaveSession(ch: Channel, hooks: seq<(CallId, nat)>)
    ensures AfterHooks(ch, hooks) ==
            ch.(results := AfterHooks(ch, hooks).results, active := AfterHooks(ch, hooks).active)
    decreases |hooks|
  {
    if hooks != [] { HooksLeaveSession(ch, hooks[..|hooks| - 1]); }
  }

  lemma {:induction false} HooksIgnoreSession(ch: Channel, s: Option<Session>, hooks: seq<(CallId, nat)>)
    ensures AfterHooks(ch.(session := s), hooks) == AfterHooks(ch, hooks).(session := s)
    decreases |hooks|
  {
    if hooks != [] { HooksIgnoreSession(ch, s, hooks[..|hooks| - 1]); }
  }

  /** Hooks run in two goes are hooks run in one, whatever the session did in between. */
  lemma {:induction false} HooksAfterHooks(ch: Channel, a: seq<(CallId, nat)>, b: seq<(CallId, nat)>,
      s: Option<Session>)
    ensures AfterHooks(AfterHooks(ch, a).(session := s), b) == AfterHooks(ch, a + b).(session := s)
    decreases |b|
  {
    if b == [] {
      assert a + b == a;
    } else {
      var front := b[..|b| - 1];
      assert (a + b)[..|a + b| - 1] == a + front;
      HooksAfterHooks(ch, a, front, s);
    }
  }

  lemma WithoutTimersAside(ch: Channel, phase: Phase, results: map<CallId, Completion>)
    ensures WithoutTimers(ch.(phase := phase, active := {}, pending := [], results := results))
            == WithoutTimers(ch).(phase := phase, active := {}, pending := [], results := results)
  {
  }

  /** A failed setup leaves no trace of the session it made. */
  lemma NoSessionNeeded(ch: Channel, s: Session, detail: Detail)
    requires ch.session.None?
    ensures !ch.phase.Over() ==> M.TearDown(ch.(session := Some(s)), detail) == M.TearDown(ch, detail)
  {
  }

  /** Cancelling timers does not look at phase or detail. */
  lemma WithoutTimersLocal(ch: Channel, phase: Phase, detail: Reason)
    ensures WithoutTimers(ch.(phase := phase, detail := detail)) == WithoutTimers(ch).(phase := phase, detail := detail)
    ensures var r := WithoutTimers(ch);
            r == ch.(timers := r.timers, connectTimer := 0, keepaliveTimer := 0, watch := NoWatch)
  {
  }

  lemma NoneCompleted(results: map<CallId, Completion>, how: Completion)
    ensures CompleteAll(results, {}, how) == results && Elements([]) == {}
  {
  }

  lemma ElementsStep(cs: seq<CallId>, i: nat)
    requires i < |cs|
    ensures Elements(cs[..i + 1]) == Elements(cs[..i]) + {cs[i]} && Elements(cs[..0]) == {}
  {
  }

  lemma CompletedOneMore(results: map<CallId, Completion>, a: set<CallId>, c: CallId, how: Completion)
    ensures Complete(CompleteAll(results, a, how), c, how) == CompleteAll(results, a + {c}, how)
  {
    var l, r := Complete(CompleteAll(results, a, how), c, how), CompleteAll(results, a + {c}, how);
    assert l.Keys == r.Keys;
  }

  lemma CompletedTwice(results: map<CallId, Completion>, a: set<CallId>, b: set<CallId>, how: Completion)
    ensures CompleteAll(CompleteAll(results, a, how), b, how) == CompleteAll(results, a + b, how)
  {
  }

  /** A connect event finds the channel connecting and without a session. */
  lemma ConnectingNow(o: Config, events: seq<Event>, k: nat, maxSkew: nat)
    requires k < |events| && ChannelRuns.Lawful(o, events, maxSkew)
    ensures ChannelRuns.Lawful(o, events[..k], maxSkew)
    ensures var ch := ChannelRuns.Run(o, events[..k]);
            && (events[k].Connect? ==> ch.phase.Connecting? && ch.session.None?)
            && (events[k].TimerFires? ==> events[k].timer in ch.timers.pending)
  {
    hide ChannelRuns.HandleAll;
    ChannelRuns.PossiblePrefix(o, START, events, maxSkew, k);
    ChannelRuns.EveryRun(o, events[..k], maxSkew);
    assert ChannelRuns.Enabled(ChannelRuns.Run(o, events[..k]), events[k], maxSkew);
  }

  /**
   The object through any lawful run: phase and results are those of the model's
   run, so every call given to it has exactly one place and at most one result.
   */
  method RunChannel(config: Config, events: seq<Event>, ghost maxSkew: nat)
    returns (phase: Phase, results: map<CallId, Completion>, waiting: set<CallId>, wire: seq<byte>)
    requires ChannelRuns.Lawful(config, events, maxSkew)
    ensures phase == ChannelRuns.Run(config, events).phase
    ensures results == ChannelRuns.Run(config, events).results
    ensures waiting !! results.Keys && waiting + results.Keys == ChannelRuns.CallsIn(events)
    ensures phase.Over() ==> waiting == {}
    ensures wire == ChannelWire.PipeOf(config, events).wire
  {
    hide Handle, SentBy, ChannelRuns.Lawful, ChannelRuns.Possible, ChannelSafety.Timed, ChannelSafety.Linked,
        ChannelSafety.Armed;
    var channel := new ChannelImpl(config);
    wire := [];
    for i := 0 to |events|
      invariant fresh(channel) && fresh(channel.Owned()) && channel.Valid() && channel.config == config
      invariant channel.Model() == ChannelRuns.Run(config, events[..i])
      invariant wire == ChannelWire.WireOf(config, events[..i])
    {
      ConnectingNow(config, events, i, maxSkew);
      assert events[..i + 1][..i] == events[..i];
      var sent := channel.HandleEvent(events[i]);
      wire := wire + sent;
    }
    assert events[..|events|] == events;
    ChannelRuns.EveryRun(config, events, maxSkew);
    ChannelWire.WireIsPipe(config, events, maxSkew);
    phase, results := channel.phase, channel.results;
    waiting := channel.activeCalls + Elements(channel.pendingCalls);
  }
}
