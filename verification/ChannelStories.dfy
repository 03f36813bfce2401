/**
 What a flush delivers and when it fails the channel, how every call in flight ends,
 connecting and its timeout, and the order of the queue.
 */
module ChannelStories {
  import opened Octets
  import opened SessionModel
  import opened TimerModel
  import opened ChannelModel
  import opened ChannelSafety
  import opened ChannelRuns
  import opened ChannelOutput

  // ------------------------------------------------------------ how a flush ends

  /** Where the flush loop of a session stops. */
  function EndOf(s: Session, script: seq<FlushTurn>): (end: Ending) { Pump(Unsent(s), script).end }

  /** Something outside the channel broke: the peer, the socket, the library or the keepalive. */
  predicate Broke(detail: Reason) {
    || detail.ClosedByServer? || detail.SocketFailed? || detail.KeepaliveTimedOut?
    || (detail.SessionFailed? && detail.error.Library?)
  }

  /**
   A flush tears the channel down exactly when it breaks, and then for that cause, or
   when it drains with an error already on record, and then for that error. A channel
   that stays up keeps its error and its draining flag, and holds back what the
   socket did not take.
   */
  predicate FlushSays(ch: Channel, script: seq<FlushTurn>, r: Channel)
    requires ch.session.Some?
  {
    var end, error := EndOf(ch.session.value, script), ch.session.value.error;
    && (r.phase.Ready? || r.phase.Failed?)
    && (r.phase.Failed? <==> end.Broken? || (end.Drained? && error != NoError))
    && (end.Drained? && error != NoError ==> r.detail == SessionFailed(error))
    && (end.Broken? ==> r.detail == end.cause && Broke(end.cause))
    && (r.phase.Ready? ==>
          && r.session.Some? && r.session.value.error == error && r.detail == ch.detail
          && r.session.value.draining == ch.session.value.draining
          && Unsent(r.session.value) == Pump(Unsent(ch.session.value), script).waiting)
  }

  lemma {:induction false} FlushVerdict(ch: Channel, script: seq<FlushTurn>)
    requires Core(ch) && ch.phase.Ready?
    ensures ch.session.Some? && ch.session.value.live && FlushSays(ch, script, Flush(ch, script))
    decreases |script|
  {
    ReadyHasSession(ch);
    hide Core, FlushSays, Offered, Flush, EndOf, Unsent, Pump;
    var turn := Turn(script);
    if Offered(ch.session.value, turn.productions) == [] || !turn.write.Wrote? || script == [] {
      FlushStops(ch, script);
    } else {
      var next := NextTurn(ch, script);
      FlushGoesOn(ch, script);
      FlushVerdict(next, script[1..]);
      FlushSaysSame(ch, script, next, script[1..]);
    }
  }

  /** The channel after one turn of the flush loop in which the socket took some bytes. */
  function NextTurn(ch: Channel, script: seq<FlushTurn>): (next: Channel)
    requires ch.session.Some? && script != [] && script[0].write.Wrote?
  {
    var turn := script[0];
    Produced(ch, turn.productions)
      .(session := Some(Consume(Refill(ch.session.value, turn.productions), turn.write.n)))
  }

  lemma FlushSaysSame(ch: Channel, script: seq<FlushTurn>, next: Channel, rest: seq<FlushTurn>)
    requires ch.session.Some? && next.session.Some? && next.detail == ch.detail
    requires next.session.value.error == ch.session.value.error
    requires next.session.value.draining == ch.session.value.draining
    requires Flush(ch, script) == Flush(next, rest)
    requires var p, q := Pump(Unsent(ch.session.value), script), Pump(Unsent(next.session.value), rest);
             p.end == q.end && p.waiting == q.waiting
    requires FlushSays(next, rest, Flush(next, rest))
    ensures FlushSays(ch, script, Flush(ch, script))
  {
    hide Flush, Pump, Unsent;
  }

  lemma FlushStops(ch: Channel, script: seq<FlushTurn>)
    requires Core(ch) && ch.phase.Ready? && ch.session.Some? && ch.session.value.live
    requires var turn := Turn(script);
             Offered(ch.session.value, turn.productions) == [] || !turn.write.Wrote? || script == []
    ensures FlushSays(ch, script, Flush(ch, script))
  {
    hide Core, Moves, Produced, Refill, Offered, Unsent, Pump, FirstError, TearDown;
    var s, turn := ch.session.value, Turn(script);
    var m := Produced(ch, turn.productions);
    RefillError(s, turn.productions);
    PumpStops(s, script);
    ViewIs(s, turn.productions);
    ProducedMoves(ch, turn.productions);
    TornDown(m, OfSession(Refill(s, turn.productions).error));
    if turn.write.WriteError? { TornDown(m, Own(SocketFailed(turn.write.text))); }
  }

  lemma FlushGoesOn(ch: Channel, script: seq<FlushTurn>)
    requires Core(ch) && ch.phase.Ready? && ch.session.Some? && ch.session.value.live
    requires script != [] && Offered(ch.session.value, script[0].productions) != [] && script[0].write.Wrote?
    ensures var next := NextTurn(ch, script);
            && Core(next) && next.phase.Ready? && next.session.Some? && next.detail == ch.detail
            && next.session.value.error == ch.session.value.error
            && next.session.value.draining == ch.session.value.draining
            && Flush(ch, script) == Flush(next, script[1..])
            && var p, q := Pump(Unsent(ch.session.value), script), Pump(Unsent(next.session.value), script[1..]);
               p.end == q.end && p.waiting == q.waiting
  {
    hide Core, Moves, Produced, Refill, Offered, Unsent, Pump, FirstError;
    var s, turn := ch.session.value, script[0];
    var m := Produced(ch, turn.productions);
    RefillError(s, turn.productions);
    ViewIs(s, turn.productions);
    PumpGoesOn(s, script);
    ProducedMoves(ch, turn.productions);
    CoreOf(ch, m);
    ConsumedMoves(m, turn.write.n);
    CoreOf(m, NextTurn(ch, script));
  }

  /**
   What a flush delivers: a channel that stays up holds back exactly what the socket
   did not take, and a flush that drains has handed over everything that was waiting
   and everything the library made, in order.
   */
  lemma FlushDelivers(ch: Channel, script: seq<FlushTurn>)
    requires Core(ch) && ch.phase.Ready?
    ensures ch.session.Some?
    ensures var r, before := Flush(ch, script), Unsent(ch.session.value);
            var p := Pump(before, script);
            && before + p.made == p.wire + p.waiting && p.wire == FlushSent(ch, script)
            && (r.phase.Ready? ==> r.session.Some? && Unsent(r.session.value) == p.waiting)
            && (EndOf(ch.session.value, script).Drained? ==> p.wire == before + p.made && p.waiting == [])
  {
    hide Core, Flush, Unsent, Pump;
    FlushVerdict(ch, script);
    PumpIsTight(Unsent(ch.session.value), script);
    var p := Pump(Unsent(ch.session.value), script);
    assert p.wire + [] == p.wire;
  }

  lemma SubmitView(ch: Channel, c: CallId, id: int)
    requires ch.phase.Ready? && ch.session.Some?
    ensures SubmitCall(ch, c, id).session == Some(Submit(ch.session.value, c, id))
    ensures SubmitCall(ch, c, id).phase.Ready?
  {
  }

  /** Nothing is held back. */
  ghost predicate Delivered(ch: Channel) { ch.session.Some? && Unsent(ch.session.value) == [] }

  /** Unless the socket blocks, a new call's request is on the wire when its handler ends. */
  lemma NewCallDelivers(o: Config, ch: Channel, e: Event)
    requires Core(ch) && ch.phase.Ready? && e.NewCall? && e.call !in Known(ch) && FreshId(ch, e.id)
    ensures ch.session.Some?
    ensures var r := HandleNewCall(o, ch, e);
            r.phase.Ready? && EndOf(Submit(ch.session.value, e.call, e.id), e.flush).Drained? ==> Delivered(r)
  {
    hide Core, Moves, Flush, EndOf, SubmitCall, Unsent;
    ReadyHasSession(ch);
    SubmitMoves(ch, e.call, e.id);
    SubmitView(ch, e.call, e.id);
    var m := SubmitCall(ch, e.call, e.id);
    CoreOf(ch, m);
    FlushDelivers(m, e.flush);
  }

  /** Whatever the library wants to answer to received bytes goes out with the same event. */
  lemma TrafficDelivers(o: Config, ch: Channel, e: Event)
    requires Core(ch) && ch.phase.Ready? && e.Traffic?
    ensures var m := if e.readable then DrainSocket(ch, e.input) else ch;
            var r := OnSocketReady(o, ch, e);
            r.phase.Ready? ==> m.session.Some? && (EndOf(m.session.value, e.flush).Drained? ==> Delivered(r))
  {
    hide Core, Moves, Flush, EndOf, DrainSocket, Unsent;
    var m := if e.readable then DrainSocket(ch, e.input) else ch;
    if e.readable { DrainMoves(ch, e.input); } else { Stays(ch); }
    CoreOf(ch, m);
    if m.phase.Ready? { FlushDelivers(m, e.flush); }
  }

  /** A PING the keepalive timer queued goes out at once, also on an idle connection. */
  lemma KeepaliveDelivers(o: Config, ch: Channel, e: Event)
    requires Core(ch) && ch.phase.Ready? && e.TimerFires?
    ensures ch.session.Some?
    ensures var s := Check(o.keepalive, ch.session.value, e.now, e.refusal).0;
            var r := OnKeepalive(o, ch, e);
            r.phase.Ready? && EndOf(s, e.flush).Drained? ==> Delivered(r)
  {
    KeepaliveSteps(o, ch, e);
    hide Core, Moves, Flush, EndOf, Check, Unsent, OnKeepalive;
    FlushDelivers(Evaluated(o, ch, e), e.flush);
    TornDownIsOver(Evaluated(o, ch, e), Own(KeepaliveTimedOut));
  }

  lemma TornDownIsOver(ch: Channel, d: Detail)
    ensures TearDown(ch, d).phase.Over()
  {
  }

  // ------------------------------------------------------------ streams

  /** A list of hooks for different calls without results gives each call its own code. */
  lemma {:induction false} HooksFinish(ch: Channel, hooks: seq<(CallId, nat)>, h: (CallId, nat))
    requires OncePerCall(hooks) && h in hooks && h.0 !in ch.results
    ensures var r := AfterHooks(ch, hooks);
            h.0 in r.results && r.results[h.0] == Finished(h.1) && h.0 !in r.active
    decreases |hooks|
  {
    var front, last := hooks[..|hooks| - 1], hooks[|hooks| - 1];
    assert hooks == front + [last];
    HooksEffect(ch, front);
    if h in front {
      HooksFinish(ch, front, h);
    } else {
      NotYet(front, last);
    }
  }

  lemma NotYet(front: seq<(CallId, nat)>, last: (CallId, nat))
    requires OncePerCall(front + [last])
    ensures last.0 !in Closed(front)
  {
    var all := front + [last];
    forall h | h in front
      ensures h.0 != last.0
    {
      var i :| 0 <= i < |front| && front[i] == h;
      assert all[i] == h && all[|front|] == last;
    }
  }

  /** The first report that a stream closed runs that stream's hook. */
  lemma {:induction false} FirstClose(s: Session, signals: seq<Signal>, k: nat)
    requires k < |signals| && signals[k].StreamClosed? && signals[k].id in s.streams
    requires forall i :: 0 <= i < k && signals[i].StreamClosed? ==> signals[i].id != signals[k].id
    ensures (s.streams[signals[k].id], signals[k].code) in HooksRun(s, signals)
    decreases |signals|
  {
    var front := signals[..|signals| - 1];
    if k < |front| {
      FirstClose(s, front, k);
    } else {
      NotClosedYet(s, front, signals[k].id);
    }
  }

  lemma {:induction false} NotClosedYet(s: Session, signals: seq<Signal>, id: int)
    requires id in s.streams && forall i :: 0 <= i < |signals| && signals[i].StreamClosed? ==> signals[i].id != id
    ensures var r := HearAll(s, signals); id in r.streams && r.streams[id] == s.streams[id]
    decreases |signals|
  {
    if signals != [] {
      NotClosedYet(s, signals[..|signals| - 1], id);
    }
  }

  /** A stream the library reports closed finishes exactly the call it was opened for, with the reported code. */
  lemma ClosedStreamFinishesItsCall(ch: Channel, r: ReadOutcome, k: nat)
    requires Core(ch) && ch.phase.Ready? && r.ReadBytes?
    requires k < |r.signals| && r.signals[k].StreamClosed? && r.signals[k].id in ch.session.value.streams
    requires forall i :: 0 <= i < k && r.signals[i].StreamClosed? ==> r.signals[i].id != r.signals[k].id
    ensures var c := ch.session.value.streams[r.signals[k].id];
            var m := Heard(ch, r);
            c in ch.active && c !in m.active && c in m.results && m.results[c] == Finished(r.signals[k].code)
  {
    hide HearAll, HooksRun, AfterHooks, OncePerCall, Receive, Timed;
    var s := ch.session.value;
    var read := if r.len > 0 then s.(lastRead := r.now) else s;
    var c := s.streams[r.signals[k].id];
    InTable(s, r.signals[k].id);
    SameTable(s, read);
    HooksAgree(read, r.signals);
    FirstClose(read, r.signals, k);
    var m := ch.(session := Some(Receive(s, r.now, r.len, r.signals, r.failure)));
    HooksFinish(m, HooksRun(read, r.signals), (c, r.signals[k].code));
  }

  // ------------------------------------------------------------ how calls in flight end

  /** What a call still in flight gets when the channel fails for this reason. */
  function Epitaph(detail: Reason): (how: Completion) {
    if detail.SessionFailed? then UNREAD else FailedWith(detail)
  }

  /**
   A call in flight stays so, or its stream closes, or the channel fails, or the
   channel is shut down. If the channel fails, the call carries the recorded
   detail exactly when that is not the session's own error.
   */
  predicate EndsWell(r: Channel, c: CallId) {
    || c in r.active
    || (c in r.results && r.results[c].Finished?)
    || (c in r.results && r.phase.Over() && r.detail != Unspecified && r.results[c] == Epitaph(r.detail))
    || (c in r.results && r.phase.ShutDown? && r.results[c] == FailedWith(ChannelShutDown))
  }

  predicate Fates(ch: Channel, r: Channel) { forall c :: c in ch.active ==> EndsWell(r, c) }

  /** A detail whose kind says where its text lives. */
  predicate Telling(d: Detail) { d.Own? ==> !d.reason.SessionFailed? && d.reason != Unspecified }

  lemma {:induction false} HooksOnlyFinish(ch: Channel, hooks: seq<(CallId, nat)>)
    requires ch.active !! ch.results.Keys
    ensures var r := AfterHooks(ch, hooks); Fates(ch, r) && r.active !! r.results.Keys
    decreases |hooks|
  {
    if hooks != [] { HooksOnlyFinish(ch, hooks[..|hooks| - 1]); }
  }

  lemma ActiveHaveNoResult(ch: Channel)
    requires Core(ch)
    ensures ch.active !! ch.results.Keys
    ensures !ch.phase.Ready? ==> ch.active == {}
  {
    hide Linked, Timed, Coded;
  }

  lemma TearDownFates(ch: Channel, d: Detail)
    requires Core(ch) && ch.phase.Ready? && Telling(d)
    ensures Fates(ch, TearDown(ch, d))
  {
    hide Core;
    TearDownMoves(ch, d);
  }

  /** Once a channel is over, its recorded detail stays. */
  predicate SameDetail(m: Channel, r: Channel) { m.phase.Over() ==> r.phase.Over() && r.detail == m.detail }

  lemma FatesOn(ch: Channel, m: Channel, r: Channel)
    requires Fates(ch, m) && Fates(m, r) && Grows(m.results, r.results) && SameDetail(m, r)
    requires m.phase.ShutDown? ==> r.phase.ShutDown?
    ensures Fates(ch, r)
  {
  }

  lemma ResultsStay(ch: Channel, r: Channel, x: set<CallId>)
    requires Moves(ch, r, x)
    ensures Grows(ch.results, r.results) && (ch.phase.ShutDown? ==> r.phase.ShutDown?)
  {
    hide Core;
  }

  lemma SameCalls(ch: Channel, m: Channel, next: Channel)
    requires Fates(ch, m) && next.active == m.active && next.results == m.results
    requires next.phase == m.phase && next.detail == m.detail
    ensures Fates(ch, next)
  {
  }

  lemma ProducedFates(ch: Channel, productions: seq<Production>)
    requires Core(ch) && ch.phase.Ready?
    ensures Fates(ch, Produced(ch, productions))
  {
    hide AfterHooks, Refill, RefillHooks;
    ReadyHasSession(ch);
    ActiveHaveNoResult(ch);
    var s := ch.session.value;
    HooksOnlyFinish(ch.(session := Some(Refill(s, productions))), RefillHooks(s, productions));
  }

  lemma {:induction false} FlushFates(ch: Channel, script: seq<FlushTurn>)
    requires Core(ch) && ch.phase.Ready?
    ensures Fates(ch, Flush(ch, script))
    decreases |script|
  {
    ReadyHasSession(ch);
    hide Core, Moves, Produced, Refill, Consume, Offered, TearDown, Fates, FlushKeeps, SameClock, Grows;
    var turn := Turn(script);
    var after := Refill(ch.session.value, turn.productions);
    var m := Produced(ch, turn.productions);
    ProducedFates(ch, turn.productions);
    ProducedMoves(ch, turn.productions);
    CoreOf(ch, m);
    if Offered(ch.session.value, turn.productions) == [] {
      if after.error != NoError { TornDownFates(ch, m, OfSession(after.error)); }
    } else if turn.write.WriteError? {
      TornDownFates(ch, m, Own(SocketFailed(turn.write.text)));
    } else if turn.write.Wrote? && script != [] {
      var next := m.(session := Some(Consume(after, turn.write.n)));
      ConsumedMoves(m, turn.write.n);
      CoreOf(m, next);
      SameCalls(ch, m, next);
      FlushFates(next, script[1..]);
      FatesThroughFlush(ch, next, script[1..]);
    }
  }

  lemma FatesThroughFlush(ch: Channel, m: Channel, script: seq<FlushTurn>)
    requires Core(m) && m.phase.Ready? && Fates(ch, m) && Fates(m, Flush(m, script))
    ensures Fates(ch, Flush(m, script))
  {
    hide Core, Moves, Fates, Flush, FlushKeeps;
    FlushMoves(m, script);
    ResultsStay(m, Flush(m, script), {});
    FatesOn(ch, m, Flush(m, script));
  }

  lemma TornDownFates(ch: Channel, m: Channel, d: Detail)
    requires Fates(ch, m) && Core(m) && m.phase.Ready? && Telling(d)
    ensures Fates(ch, TearDown(m, d))
  {
    hide Core, Fates, TearDown;
    TearDownMoves(m, d);
    TearDownFates(m, d);
    ResultsStay(m, TearDown(m, d), {});
    FatesOn(ch, m, TearDown(m, d));
  }

  lemma {:induction false} DrainFates(ch: Channel, input: seq<ReadOutcome>)
    requires Core(ch) && ch.phase.Ready?
    ensures Fates(ch, DrainSocket(ch, input))
    decreases |input|
  {
    ReadyHasSession(ch);
    hide Core, Moves, Heard, TearDown, Receive, Fates;
    FatesNow(ch);
    if input != [] {
      match input[0]
      case ReadBlocked =>
      case ReadEof => TearDownFates(ch, Own(ClosedByServer));
      case ReadError(text) => TearDownFates(ch, Own(SocketFailed(text)));
      case ReadBytes(now, len, signals, failure) =>
        var m := Heard(ch, input[0]);
        HeardMoves(ch, input[0]);
        HeardFates(ch, input[0]);
        CoreOf(ch, m);
        if failure.Some? {
          TornDownFates(ch, m, OfSession(Receive(ch.session.value, now, len, signals, failure).error));
        } else {
          DrainFates(m, input[1..]);
          DrainMoves(m, input[1..]);
          ResultsStay(m, DrainSocket(m, input[1..]), {});
          FatesOn(ch, m, DrainSocket(m, input[1..]));
        }
    }
  }

  lemma FatesNow(ch: Channel)
    ensures Fates(ch, ch)
  {
  }

  lemma HeardFates(ch: Channel, r: ReadOutcome)
    requires Core(ch) && ch.phase.Ready? && ch.session.Some? && r.ReadBytes?
    ensures Fates(ch, Heard(ch, r))
  {
    hide AfterHooks, Receive, HooksRun;
    ActiveHaveNoResult(ch);
    var s := ch.session.value;
    var hooks := if s.live then HooksRun(if r.len > 0 then s.(lastRead := r.now) else s, r.signals) else [];
    HooksOnlyFinish(ch.(session := Some(Receive(s, r.now, r.len, r.signals, r.failure))), hooks);
  }

  /** Steps that touch neither calls nor phase, before or after a flush. */
  lemma FatesAside(ch: Channel, m: Channel, r: Channel)
    requires Fates(m, r) && ch.active <= m.active
    ensures Fates(ch, r)
  {
  }

  lemma RearmFates(o: Config, ch: Channel, m: Channel, skew: nat)
    requires Fates(ch, m)
    ensures Fates(ch, Rearm(o, m, skew))
  {
    var r := Rearm(o, m, skew);
    assert r.active == m.active && r.results == m.results && r.phase == m.phase && r.detail == m.detail;
  }

  lemma TrafficFates(o: Config, ch: Channel, e: Event)
    requires Core(ch) && ch.phase.Ready? && e.Traffic?
    ensures Fates(ch, OnSocketReady(o, ch, e))
  {
    hide Core, Moves, DrainSocket, Flush, Rearm, Fates;
    var m := if e.readable then DrainSocket(ch, e.input) else ch;
    if e.readable { DrainMoves(ch, e.input); DrainFates(ch, e.input); } else { Stays(ch); FatesNow(ch); }
    CoreOf(ch, m);
    if m.phase.Ready? {
      var n := Flush(m, e.flush);
      FlushFates(m, e.flush);
      FlushMoves(m, e.flush);
      ResultsStay(m, n, {});
      FatesOn(ch, m, n);
      RearmFates(o, ch, n, e.skew);
    }
  }

  lemma KeepaliveFates(o: Config, ch: Channel, e: Event)
    requires Core(ch) && ch.phase.Ready? && e.TimerFires?
    ensures Fates(ch, OnKeepalive(o, ch, e))
  {
    KeepaliveSteps(o, ch, e);
    hide Core, Moves, Flush, Rearm, Fates, TearDown, Check, OnKeepalive;
    var m := Evaluated(o, ch, e);
    if Check(o.keepalive, ch.session.value, e.now, e.refusal).1.Dead? {
      TearDownFates(m, Own(KeepaliveTimedOut));
      FatesAside(ch, m, TearDown(m, Own(KeepaliveTimedOut)));
    } else {
      FlushFates(m, e.flush);
      FatesAside(ch, m, Flush(m, e.flush));
      RearmFates(o, ch, Flush(m, e.flush), e.skew);
    }
  }

  lemma TimerFates(o: Config, ch: Channel, e: Event, maxSkew: nat)
    requires Inv(o, ch, maxSkew) && ch.phase.Ready? && e.TimerFires? && Enabled(ch, e, maxSkew)
    ensures Fates(ch, OnTimer(o, ch, e))
  {
    TimerIsKeepalive(o, ch, e.timer, maxSkew);
    TimerTaken(ch, e.timer);
    hide Core, Moves, OnKeepalive, Fates;
    var f := ch.(timers := Removed(ch.timers, e.timer), keepaliveTimer := 0);
    CoreOf(ch, f);
    KeepaliveFates(o, f, e);
    FatesAside(ch, f, OnKeepalive(o, f, e));
  }

  lemma TimerIsKeepalive(o: Config, ch: Channel, id: nat, maxSkew: nat)
    requires Inv(o, ch, maxSkew) && ch.phase.Ready? && id in ch.timers.pending
    ensures id == ch.keepaliveTimer && ch.timers.pending[id].callback == KeepaliveCheck
  {
    hide OnePlace, Linked, Armed, Coded;
  }

  lemma NewCallFates(o: Config, ch: Channel, e: Event)
    requires Core(ch) && ch.phase.Ready? && e.NewCall? && e.call !in Known(ch) && FreshId(ch, e.id)
    ensures Fates(ch, HandleNewCall(o, ch, e))
  {
    ReadyHasSession(ch);
    hide Core, Moves, Flush, Fates;
    var m := SubmitCall(ch, e.call, e.id);
    SubmitMoves(ch, e.call, e.id);
    CoreOf(ch, m);
    FlushFates(m, e.flush);
    FatesAside(ch, m, Flush(m, e.flush));
  }

  lemma ShutdownFates(o: Config, ch: Channel, e: Event, maxSkew: nat)
    requires Inv(o, ch, maxSkew) && ch.phase.Ready? && e.ShutdownOp?
    ensures Fates(ch, DoShutdown(ch, e))
  {
    hide DoShutdown, Inv, Moves;
    ActiveOf(o, ch, maxSkew);
    ShutdownKeeps(o, ch, e, maxSkew);
  }

  lemma ActiveOf(o: Config, ch: Channel, maxSkew: nat)
    requires Inv(o, ch, maxSkew)
    ensures ch.active !! ch.results.Keys && (!ch.phase.Ready? ==> ch.active == {})
  {
    hide Core;
    ActiveHaveNoResult(ch);
  }

  lemma NoConnectWhenReady(o: Config, ch: Channel, e: Event, maxSkew: nat)
    requires Inv(o, ch, maxSkew) && ch.phase.Ready? && Enabled(ch, e, maxSkew)
    ensures !e.Connect?
  {
    hide Core, Armed;
  }

  /** One event, whatever it is. */
  lemma HandleFates(o: Config, ch: Channel, e: Event, maxSkew: nat)
    requires Inv(o, ch, maxSkew) && Enabled(ch, e, maxSkew)
    ensures Fates(ch, Handle(o, ch, e))
  {
    hide Inv, Core, Fates, HandleNewCall, DoShutdown, OnConnectProgress, OnSocketReady, OnTimer;
    if ch.phase.Ready? {
      CoreOfInv(o, ch, maxSkew);
      NoConnectWhenReady(o, ch, e, maxSkew);
      match e
      case NewCall(_, _, _, _, _) => NewCallFates(o, ch, e);
      case ShutdownOp(_) => ShutdownFates(o, ch, e, maxSkew);
      case Traffic(_, _, _, _) => TrafficFates(o, ch, e);
      case TimerFires(_, _, _, _, _) => TimerFates(o, ch, e, maxSkew);
      case Connect(_, _, _, _, _, _, _) =>
    } else {
      ActiveOf(o, ch, maxSkew);
      NoFates(ch, Handle(o, ch, e));
    }
  }

  lemma NoFates(ch: Channel, r: Channel)
    requires ch.active == {}
    ensures Fates(ch, r)
  {
  }

  /** A channel that is over handles calls and shutdown only, and neither rewrites its detail. */
  lemma DetailStays(o: Config, ch: Channel, e: Event, maxSkew: nat)
    requires Inv(o, ch, maxSkew) && Enabled(ch, e, maxSkew) && ch.phase.Over()
    ensures Handle(o, ch, e).detail == ch.detail
  {
    OnlyCallsReachIt(o, ch, e, maxSkew);
    hide Inv;
    if e.ShutdownOp? { HooksEffectOnly(ch, e); }
  }

  lemma HooksEffectOnly(ch: Channel, e: Event)
    requires e.ShutdownOp?
    ensures DoShutdown(ch, e).detail == ch.detail
  {
    hide AfterHooks, Farewell, CompleteAll;
    var closed := WithoutTimers(ch).(phase := ShutDown, active := {}, pending := [],
      results := CompleteAll(ch.results, ch.active + Elements(ch.pending), FailedWith(ChannelShutDown)));
    var hooks := if ch.phase.Ready? && ch.session.Some? then Farewell(Terminate(ch.session.value), e.flush) else [];
    HooksEffect(closed, hooks);
  }

  /**
   From any sound state through any events: every call in flight stays in flight,
   finishes by its own stream, or ends with the channel. A failed channel leaves it
   its recorded detail, except that a detail which was the session's own error is lost.
   */
  lemma {:induction false} HowCallsEnd(o: Config, ch: Channel, events: seq<Event>, maxSkew: nat)
    requires Inv(o, ch, maxSkew) && Possible(o, ch, events, maxSkew)
    ensures Fates(ch, HandleAll(o, ch, events)) && SameDetail(ch, HandleAll(o, ch, events))
    decreases |events|
  {
    hide Inv, Possible, Handle, Fates, Enabled;
    if events == [] {
      FatesNow(ch);
    } else {
      var front, e := events[..|events| - 1], events[|events| - 1];
      PossibleFront(o, ch, events, maxSkew);
      HowCallsEnd(o, ch, front, maxSkew);
      EventsKeep(o, ch, front, maxSkew);
      var m := HandleAll(o, ch, front);
      assert HandleAll(o, ch, events) == Handle(o, m, e) by { TimerIsThere(m, e, maxSkew); }
      HandleKeeps(o, m, e, maxSkew);
      HandleFates(o, m, e, maxSkew);
      StaysOver(m, Handle(o, m, e), CallsOf(e));
      if m.phase.Over() { DetailStays(o, m, e, maxSkew); }
      ResultsStay(m, Handle(o, m, e), CallsOf(e));
      FatesOn(ch, m, Handle(o, m, e));
    }
  }

  /** A channel that was Ready and is Ready was Ready in between. */
  lemma StillReady(ch: Channel, m: Channel, r: Channel, x: set<CallId>, y: set<CallId>)
    requires Moves(ch, m, x) && Moves(m, r, y) && ch.phase.Ready?
    ensures r.phase.Ready? ==> m.phase.Ready?
  {
    hide Core;
  }

  lemma ReadyHasLiveSession(o: Config, ch: Channel, maxSkew: nat)
    requires Inv(o, ch, maxSkew) && ch.phase.Ready?
    ensures ch.session.Some? && ch.session.value.live
  {
  }

  lemma TimerIsThere(ch: Channel, e: Event, maxSkew: nat)
    requires Enabled(ch, e, maxSkew)
    ensures e.TimerFires? ==> e.timer in ch.timers.pending
  {
  }

  lemma StaysOver(ch: Channel, r: Channel, x: set<CallId>)
    requires Moves(ch, r, x)
    ensures ch.phase.Over() ==> r.phase.Over()
  {
    hide Core;
  }

  // ------------------------------------------------------------ connecting

  /** Still connecting: more calls arrive, or the handshake reports progress without finishing. */
  predicate StillConnecting(events: seq<Event>) {
    forall i :: 0 <= i < |events| ==> events[i].NewCall? || (events[i].Connect? && events[i].outcome.InProgress?)
  }

  /** The calls of a list of events, in order. */
  function Arrivals(events: seq<Event>): (cs: seq<CallId>) {
    if events == [] then []
    else Arrivals(events[..|events| - 1]) + if events[|events| - 1].NewCall? then [events[|events| - 1].call] else []
  }

  /** While connecting, calls queue up in order and the connect timer is left alone. */
  lemma {:induction false} QueueGrows(o: Config, ch: Channel, events: seq<Event>)
    requires ch.phase.Connecting? && StillConnecting(events)
    ensures HandleAll(o, ch, events) == ch.(pending := ch.pending + Arrivals(events))
    decreases |events|
  {
    if events == [] {
      assert ch.pending + [] == ch.pending;
    } else {
      var front, e := events[..|events| - 1], events[|events| - 1];
      QueueGrows(o, ch, front);
      if e.NewCall? {
        Assoc(ch.pending, Arrivals(front), [e.call]);
      } else {
        assert Arrivals(front) + [] == Arrivals(front);
      }
    }
  }

  /**
   The connect timeout. The first call starts connecting; whatever calls follow, the
   timer cannot fire before connect_timeout has passed, and when it does every call
   queued so far fails with that reason.
   */
  lemma ConnectTimeoutFailsQueue(o: Config, ch: Channel, first: Event, events: seq<Event>, fires: Event, maxSkew: nat)
    requires Inv(o, ch, maxSkew) && ch.phase.Idle?
    requires first.NewCall? && Enabled(ch, first, maxSkew) && first.refusal.None?
    requires var m := HandleNewCall(o, ch, first);
             && StillConnecting(events) && Possible(o, m, events, maxSkew)
             && fires.TimerFires? && Enabled(HandleAll(o, m, events), fires, maxSkew)
    ensures var late := HandleAll(o, HandleNewCall(o, ch, first), events);
            var r := OnTimer(o, late, fires);
            && late.pending == [first.call] + Arrivals(events)
            && fires.now >= first.now + o.connectTimeout
            && r.phase.Failed? && r.detail == ConnectTimedOut
            && forall c :: c in late.pending ==> c in r.results && r.results[c] == FailedWith(ConnectTimedOut)
  {
    var m := HandleNewCall(o, ch, first);
    NewCallKeeps(o, ch, first, maxSkew);
    QueueGrows(o, m, events);
    EventsKeep(o, m, events, maxSkew);
    ConnectArmed(o, ch, first, maxSkew);
    hide *;
    ConnectFires(o, HandleAll(o, m, events), fires, maxSkew);
  }

  lemma ConnectFires(o: Config, ch: Channel, e: Event, maxSkew: nat)
    requires Inv(o, ch, maxSkew) && ch.phase.Connecting? && e.TimerFires? && Enabled(ch, e, maxSkew)
    ensures ch.connectTimer in ch.timers.pending && e.now >= ch.timers.pending[ch.connectTimer].deadline
    ensures e.timer in ch.timers.pending
    ensures var r := OnTimer(o, ch, e);
            && r.phase.Failed? && r.detail == ConnectTimedOut
            && forall c :: c in ch.pending ==> c in r.results && r.results[c] == FailedWith(ConnectTimedOut)
  {
    OnlyConnectTimer(o, ch, e.timer, maxSkew);
    TimerTaken(ch, e.timer);
    hide Inv, Moves, Core;
    var f := ch.(timers := Removed(ch.timers, e.timer), connectTimer := 0);
    CoreOf(ch, f);
    TearDownMoves(f, Own(ConnectTimedOut));
  }

  lemma ConnectArmed(o: Config, ch: Channel, first: Event, maxSkew: nat)
    requires Inv(o, ch, maxSkew) && ch.phase.Idle? && first.NewCall? && first.refusal.None?
    ensures var m := HandleNewCall(o, ch, first);
            && m.phase.Connecting? && m.pending == [first.call] && m.connectTimer in m.timers.pending
            && m.timers.pending[m.connectTimer] == Timer(first.now + o.connectTimeout, ConnectTimeout)
  {
    hide OnePlace, Linked;
    assert [] + [first.call] == [first.call];
  }

  lemma OnlyConnectTimer(o: Config, ch: Channel, id: nat, maxSkew: nat)
    requires Inv(o, ch, maxSkew) && ch.phase.Connecting? && id in ch.timers.pending
    ensures id == ch.connectTimer && ch.timers.pending[id].callback == ConnectTimeout
  {
    hide OnePlace, Linked, Armed;
  }

  // ------------------------------------------------------------ after a failure

  predicate NoShutdown(events: seq<Event>) { forall i :: 0 <= i < |events| ==> !events[i].ShutdownOp? }

  /**
   A failed channel answers every further call with the reason it failed for, until it is shut
   down, and changes nothing else.
   */
  lemma {:induction false} FailedForTheSameReason(o: Config, ch: Channel, events: seq<Event>, maxSkew: nat)
    requires Inv(o, ch, maxSkew) && ch.phase.Failed?
    requires NoShutdown(events) && Possible(o, ch, events, maxSkew)
    ensures var r := HandleAll(o, ch, events);
            && r == ch.(results := r.results)
            && forall c :: c in CallsIn(events) ==> c in r.results && r.results[c] == FailedWith(ch.detail)
    decreases |events|
  {
    hide Possible, Inv;
    if events != [] {
      var front, e := events[..|events| - 1], events[|events| - 1];
      PossibleFront(o, ch, events, maxSkew);
      FailedForTheSameReason(o, ch, front, maxSkew);
      EventsKeep(o, ch, front, maxSkew);
      var m := HandleAll(o, ch, front);
      OnlyCallsReachIt(o, m, e, maxSkew);
      CallIsNew(o, m, e, maxSkew);
    }
  }

  /** Nothing watches and no timer is pending, so only calls and shutdown can happen. */
  lemma OnlyCallsReachIt(o: Config, ch: Channel, e: Event, maxSkew: nat)
    requires Inv(o, ch, maxSkew) && ch.phase.Over() && Enabled(ch, e, maxSkew)
    ensures e.NewCall? || e.ShutdownOp?
  {
  }

  lemma CallIsNew(o: Config, ch: Channel, e: Event, maxSkew: nat)
    requires Inv(o, ch, maxSkew) && ch.phase.Failed? && Enabled(ch, e, maxSkew) && e.NewCall?
    ensures e.call !in ch.results
  {
    hide Inv;
  }

  // ------------------------------------------------------------ the queue

  ghost predicate Open(ch: Channel) {
    ch.phase.Ready? && ch.session.Some? && ch.session.value.live && !ch.session.value.draining
  }

  /** Each id in the table, with the call it was handed out for. */
  ghost predicate Assigned(streams: map<int, CallId>, before: map<int, CallId>, cs: seq<CallId>, ids: seq<int>)
    requires |ids| >= |cs|
  {
    && (forall i :: 0 <= i < |cs| ==> ids[i] in streams && streams[ids[i]] == cs[i])
    && (forall id :: id in streams ==> id in before || exists i :: 0 <= i < |cs| && ids[i] == id)
  }

  lemma SubmitOne(ch: Channel, c: CallId, id: int)
    requires Open(ch) && id >= 0 && id !in ch.session.value.streams
    ensures var r := SubmitCall(ch, c, id);
            && Open(r) && r.active == ch.active + {c}
            && r.session.value.streams == ch.session.value.streams[id := c]
  {
  }

  lemma AssignOne(streams: map<int, CallId>, before: map<int, CallId>, cs: seq<CallId>, ids: seq<int>)
    requires cs != [] && |ids| >= |cs| && DistinctIds(ids)
    requires forall i :: 0 <= i < |ids| ==> ids[i] >= 0 && ids[i] !in before
    requires Assigned(streams, before, cs[..|cs| - 1], ids)
    ensures ids[|cs| - 1] !in streams
    ensures Assigned(streams[ids[|cs| - 1] := cs[|cs| - 1]], before, cs, ids)
  {
  }

  /** The queued calls get the library's ids in the order they were queued. */
  lemma {:induction false} QueueKeepsOrder(ch: Channel, cs: seq<CallId>, ids: seq<int>)
    requires Open(ch) && |ids| >= |cs| && DistinctIds(ids)
    requires forall i :: 0 <= i < |ids| ==> ids[i] >= 0 && ids[i] !in ch.session.value.streams
    ensures var r := SubmitAll(ch, cs, ids);
            && Open(r) && r.active == ch.active + Elements(cs)
            && Assigned(r.session.value.streams, ch.session.value.streams, cs, ids)
    decreases |cs|
  {
    hide SubmitCall, Assigned;
    if cs == [] {
      assert Elements(cs) == {};
      AssignNone(ch.session.value.streams, ids);
    } else {
      var last := |cs| - 1;
      var front := cs[..last];
      QueueKeepsOrder(ch, front, ids);
      var m := SubmitAll(ch, front, ids);
      AssignOne(m.session.value.streams, ch.session.value.streams, cs, ids);
      SubmitOne(m, cs[last], ids[last]);
      assert cs == front + [cs[last]];
      assert Elements(cs) == Elements(front) + {cs[last]};
    }
  }

  lemma AssignNone(streams: map<int, CallId>, ids: seq<int>)
    ensures Assigned(streams, streams, [], ids)
  {
  }
}
