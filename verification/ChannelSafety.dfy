/**
 What every run of the channel keeps: each call is in exactly one place and gets
 one result, the phase never goes back, and once the channel is over nothing
 of it is left behind.
 */
module ChannelSafety {
  import opened Octets
  import opened SessionModel
  import opened TimerModel
  import opened ChannelModel

  // ------------------------------------------------------------ invariants

  predicate NoRepeats(cs: seq<CallId>) { forall i, j :: 0 <= i < j < |cs| ==> cs[i] != cs[j] }

  /** Every call the channel has ever been given. */
  ghost function Known(ch: Channel): set<CallId> { Elements(ch.pending) + ch.active + ch.results.Keys }

  /** A call is queued, in flight or finished, and only one of them. */
  ghost predicate OnePlace(ch: Channel) {
    && NoRepeats(ch.pending)
    && Elements(ch.pending) !! ch.active
    && Elements(ch.pending) !! ch.results.Keys
    && ch.active !! ch.results.Keys
  }

  /** The loop's pending timers are exactly the ones the channel remembers. */
  ghost predicate Timed(ch: Channel) {
    && WellFormed(ch.timers)
    && ch.timers.pending.Keys == {ch.connectTimer, ch.keepaliveTimer} - {0}
    && (ch.connectTimer != 0 ==> ch.timers.pending[ch.connectTimer].callback == ConnectTimeout)
    && (ch.keepaliveTimer != 0 ==> ch.timers.pending[ch.keepaliveTimer].callback == KeepaliveCheck)
  }

  /** One stream per active call, and one count per stream. */
  ghost predicate Linked(s: Session, active: set<CallId>) {
    s.live && Agrees(s) && Calls(s) == active && Bounded(s)
  }

  /** Nothing is left of a channel that is over. */
  ghost predicate Released(ch: Channel) {
    && ch.pending == [] && ch.active == {} && ch.session.None?
    && ch.timers.pending == map[] && ch.connectTimer == 0 && ch.keepaliveTimer == 0
    && ch.watch == NoWatch
  }

  /** Whatever the channel itself fails is unavailable. */
  ghost predicate Coded(results: map<CallId, Completion>) {
    forall c :: c in results ==> results[c].Finished? || results[c].IsUnavailable()
  }

  /** What holds even in the middle of a handler. */
  ghost predicate Core(ch: Channel) {
    && OnePlace(ch) && Timed(ch) && Coded(ch.results)
    && (ch.phase.Idle? || ch.phase.Connecting? ==> ch.session.None? && ch.active == {})
    && (ch.phase.Ready? ==> ch.session.Some? && Linked(ch.session.value, ch.active))
    && (ch.phase.Over() ==> Released(ch))
  }

  /**
   A pending keepalive timer stands at the session's clock, late by at most the skew
   of two clock readings, and with permit_without_calls there is one.
   */
  ghost predicate Armed(o: Config, ch: Channel, maxSkew: nat) {
    ch.phase.Ready? && ch.session.Some? ==>
      var clock := Clock(o.keepalive, ch.session.value);
      && (o.keepalive.permitWithoutCalls ==> ch.keepaliveTimer != 0)
      && (ch.keepaliveTimer != 0 ==>
            && ch.keepaliveTimer in ch.timers.pending
            && clock <= ch.timers.pending[ch.keepaliveTimer].deadline <= clock + maxSkew)
  }

  /** Just armed: there is a timer exactly when the session has a deadline. */
  ghost predicate Rearmed(o: Config, ch: Channel) {
    ch.phase.Ready? && ch.session.Some? ==>
      (ch.keepaliveTimer != 0 <==> Deadline(o.keepalive, ch.session.value).Some?)
  }

  /** What holds between handlers, in addition. */
  ghost predicate Settled(o: Config, ch: Channel, maxSkew: nat) {
    && (ch.phase.Idle? ==> ch.pending == [] && ch.timers.pending == map[] && ch.watch == NoWatch)
    && (ch.phase.Connecting? ==>
          ch.pending != [] && ch.connectTimer != 0 && ch.keepaliveTimer == 0 && ch.watch == WatchConnect)
    && (ch.phase.Ready? ==> ch.pending == [] && ch.connectTimer == 0 && ch.watch == WatchSession)
    && Armed(o, ch, maxSkew)
  }

  ghost predicate Inv(o: Config, ch: Channel, maxSkew: nat) { Core(ch) && Settled(o, ch, maxSkew) }

  ghost predicate Grows(a: map<CallId, Completion>, b: map<CallId, Completion>) {
    forall c :: c in a ==> c in b && b[c] == a[c]
  }

  /** From ch to r: the phase does not go back, results stay as they are, and no call appears but the added ones. */
  ghost predicate Moves(ch: Channel, r: Channel, added: set<CallId>) {
    && Core(ch) && Core(r)
    && ch.phase.Rank() <= r.phase.Rank()
    && Grows(ch.results, r.results)
    && Known(r) == Known(ch) + added
  }

  lemma MovesOn(a: Channel, b: Channel, c: Channel, x: set<CallId>, y: set<CallId>)
    requires Moves(a, b, x) && Moves(b, c, y)
    ensures Moves(a, c, x + y)
  {
    hide Core;
  }

  lemma Then(a: Channel, b: Channel, c: Channel, x: set<CallId>)
    requires Moves(a, b, x) && Moves(b, c, {})
    ensures Moves(a, c, x)
  {
    hide Core;
    MovesOn(a, b, c, x, {});
    assert x + {} == x;
  }

  lemma Stays(ch: Channel)
    requires Core(ch)
    ensures Moves(ch, ch, {})
  {
    hide Core;
  }

  // ------------------------------------------------------------ building blocks

  /**
   Every queued and every active call is failed, unavailable. It carries the recorded
   reason exactly when TearDown was not passed the session's own error.
   */
  lemma TearDownMoves(ch: Channel, detail: Detail)
    requires Core(ch)
    ensures Moves(ch, TearDown(ch, detail), {})
    ensures TearDown(ch, detail).phase.Over()
    ensures !ch.phase.Over() ==> TearDown(ch, detail).detail == detail.Said()
    ensures !ch.phase.Over() ==>
              forall c :: c in ch.active || c in ch.pending ==>
                && c in TearDown(ch, detail).results && TearDown(ch, detail).results[c].IsUnavailable()
                && (TearDown(ch, detail).results[c] == FailedWith(detail.Said()) <==> detail.Own?)
                && (TearDown(ch, detail).results[c] == UNREAD <==> detail.OfSession?)
  {
    hide Linked, Timed, OnePlace, Coded;
    if !ch.phase.Over() {
      AllCompleted(ch, detail.AfterReset());
      TimersGone(ch);
      OnlyTimersSame(WithoutTimers(ch), TearDown(ch, detail));
      NoCallsLeft(ch, TearDown(ch, detail), detail.AfterReset());
    }
  }

  lemma OnlyTimersSame(ch: Channel, r: Channel)
    requires r.timers == ch.timers && r.connectTimer == ch.connectTimer && r.keepaliveTimer == ch.keepaliveTimer
    ensures Timed(ch) ==> Timed(r)
  {
  }

  /** Every call in a container gets the same result, and nobody else's changes. */
  lemma AllCompleted(ch: Channel, how: Completion)
    ensures var results := CompleteAll(ch.results, ch.active + Elements(ch.pending), how);
            && Grows(ch.results, results) && results.Keys == Known(ch)
            && (OnePlace(ch) ==> forall c :: c in ch.active || c in ch.pending ==> c in results && results[c] == how)
            && (Coded(ch.results) && how.IsUnavailable() ==> Coded(results))
  {
    assert forall c :: c in ch.pending ==> c in Elements(ch.pending);
  }

  lemma NoCallsLeft(ch: Channel, r: Channel, how: Completion)
    requires r.active == {} && r.pending == []
    requires r.results == CompleteAll(ch.results, ch.active + Elements(ch.pending), how)
    ensures OnePlace(r) && Known(r) == Known(ch)
  {
    assert Elements([]) == {};
  }

  lemma TimersGone(ch: Channel)
    requires Timed(ch)
    ensures var r := WithoutTimers(ch);
            r.timers.pending == map[] && Timed(r)
  {
  }

  /** What hooks for these calls may change. */
  ghost predicate Finishes(ch: Channel, r: Channel, cs: set<CallId>) {
    && r == ch.(results := r.results, active := r.active)
    && r.active == ch.active - cs
    && r.results.Keys == ch.results.Keys + cs
    && Grows(ch.results, r.results) && (Coded(ch.results) ==> Coded(r.results))
  }

  lemma OneHook(ch: Channel, m: Channel, cs: set<CallId>, h: (CallId, nat))
    requires Finishes(ch, m, cs)
    ensures Finishes(ch, m.(results := Complete(m.results, h.0, Finished(h.1)), active := m.active - {h.0}), cs + {h.0})
  {
  }

  /** Running hooks: exactly their calls leave the active set and have results. */
  lemma {:induction false} HooksEffect(ch: Channel, hooks: seq<(CallId, nat)>)
    ensures Finishes(ch, AfterHooks(ch, hooks), Closed(hooks))
    decreases |hooks|
  {
    if hooks == [] {
      assert Closed([]) == {};
    } else {
      hide Finishes, Closed, Complete;
      var front, last := hooks[..|hooks| - 1], hooks[|hooks| - 1];
      HooksEffect(ch, front);
      OneHook(ch, AfterHooks(ch, front), Closed(front), last);
      HookAdded(front, last);
      assert hooks == front + [last];
    }
  }

  /** After the session closed some streams and their hooks ran, tables and containers agree again. */
  lemma HooksMove(ch: Channel, s: Session, hooks: seq<(CallId, nat)>)
    requires Core(ch) && ch.phase.Ready?
    requires s.live && Agrees(s) && Bounded(s)
    requires Closed(hooks) <= Calls(ch.session.value) && Calls(s) == Calls(ch.session.value) - Closed(hooks)
    ensures var r := AfterHooks(ch.(session := Some(s)), hooks);
            && r.active <= ch.active && Moves(ch, r, {}) && r.phase.Ready? && r.session == Some(s)
            && r == ch.(session := Some(s), results := r.results, active := r.active)
  {
    hide Agrees, Bounded, Calls, Closed, AfterHooks;
    HooksEffect(ch.(session := Some(s)), hooks);
  }

  /** The keepalive machine and the draining flag of two sessions are the same. */
  predicate SameClock(s: Session, r: Session) {
    && r.live == s.live && r.lastRead == s.lastRead && r.pingSent == s.pingSent
    && r.pingOutstanding == s.pingOutstanding && r.draining == s.draining
  }

  lemma RefillFacts(s: Session, script: seq<Production>)
    requires Agrees(s) && Bounded(s)
    ensures var r := Refill(s, script); var hooks := RefillHooks(s, script);
            && Agrees(r) && Bounded(r) && SameClock(s, r)
            && Closed(hooks) <= Calls(s) && Calls(r) == Calls(s) - Closed(hooks)
  {
    hide Collect, CollectHooks, OncePerCall;
    StepBounded(Options(0, 0, true), s, Refilled(script));
    var e := s.(out := [], consumed := 0);
    assert Agrees(e) && Calls(e) == Calls(s);
    CollectAgrees(e, script);
    CollectTouches(e, script);
    CollectNoAck(e, script);
    assert Closed([]) == {};
  }

  lemma ProducedMoves(ch: Channel, productions: seq<Production>)
    requires Core(ch) && ch.phase.Ready?
    ensures var r := Produced(ch, productions);
            && Moves(ch, r, {}) && r.phase.Ready?
            && r == ch.(session := r.session, results := r.results, active := r.active) && r.active <= ch.active
            && r.session == Some(Refill(ch.session.value, productions))
            && SameClock(ch.session.value, r.session.value)
  {
    hide Refill, RefillHooks, AfterHooks, Agrees, Bounded, Calls, Closed;
    RefillFacts(ch.session.value, productions);
    HooksMove(ch, Refill(ch.session.value, productions), RefillHooks(ch.session.value, productions));
  }

  /** What a flush that leaves the channel up cannot have touched. */
  predicate FlushKeeps(ch: Channel, r: Channel) {
    && r.phase == ch.phase && r.pending == ch.pending && r.watch == ch.watch && r.detail == ch.detail
    && r.timers == ch.timers && r.connectTimer == ch.connectTimer && r.keepaliveTimer == ch.keepaliveTimer
    && (ch.session.Some? ==> r.session.Some? && SameClock(ch.session.value, r.session.value))
  }

  /** Replacing the session by one with the same streams disturbs nothing. */
  lemma SwapSession(ch: Channel, s: Session)
    requires Core(ch) && ch.phase.Ready?
    requires s.live && Agrees(s) && Bounded(s) && Calls(s) == Calls(ch.session.value)
    ensures Moves(ch, ch.(session := Some(s)), {})
  {
    hide Agrees, Bounded, Calls;
  }

  lemma ConsumedMoves(ch: Channel, n: nat)
    requires Core(ch) && ch.phase.Ready?
    ensures var r := ch.(session := Some(Consume(ch.session.value, n)));
            Moves(ch, r, {}) && FlushKeeps(ch, r)
  {
    var s := ch.session.value;
    StepBounded(Options(0, 0, true), s, Consumed(n));
    assert Agrees(Consume(s, n)) && Calls(Consume(s, n)) == Calls(s);
    SwapSession(ch, Consume(s, n));
  }

  /** A flush either keeps the channel up, or fails it. */
  lemma {:induction false} FlushMoves(ch: Channel, script: seq<FlushTurn>)
    requires Core(ch)
    ensures Moves(ch, Flush(ch, script), {})
    ensures Flush(ch, script).phase.Ready? ==> FlushKeeps(ch, Flush(ch, script))
    ensures ch.phase.Ready? ==> Flush(ch, script).phase.Ready? || Flush(ch, script).phase.Failed?
    ensures Flush(ch, script).active <= ch.active
    decreases |script|
  {
    hide Core, Moves, Produced, TearDown, Offered, Refill, Consume;
    if ch.phase != Ready {
      Stays(ch);
    } else {
      assert ch.session.Some? by { ReadyHasSession(ch); }
      var turn := Turn(script);
      var view := Offered(ch.session.value, turn.productions);
      var after := Refill(ch.session.value, turn.productions);
      var m := Produced(ch, turn.productions);
      ProducedMoves(ch, turn.productions);
      CoreOf(ch, m);
      if view == [] && after.error != NoError {
        TearDownOn(ch, m, OfSession(after.error));
      } else if view != [] && turn.write.WriteError? {
        TearDownOn(ch, m, Own(SocketFailed(turn.write.text)));
      } else if view != [] && turn.write.Wrote? && script != [] {
        var next := m.(session := Some(Consume(after, turn.write.n)));
        ConsumedMoves(m, turn.write.n);
        CoreOf(m, next);
        FlushMoves(next, script[1..]);
        Then(ch, m, next, {});
        Then(ch, next, Flush(next, script[1..]), {});
      }
    }
  }

  lemma ReadyHasSession(ch: Channel)
    requires Core(ch) && ch.phase.Ready?
    ensures ch.session.Some? && ch.session.value.live
  {
  }

  lemma CoreOf(ch: Channel, r: Channel)
    requires exists x :: Moves(ch, r, x)
    ensures Core(ch) && Core(r)
  {
    hide Core;
  }

  lemma TearDownOn(ch: Channel, m: Channel, detail: Detail)
    requires Moves(ch, m, {}) && m.phase.Ready?
    ensures Moves(ch, TearDown(m, detail), {}) && TearDown(m, detail).phase.Failed?
    ensures TearDown(m, detail).active == {}
  {
    hide Core;
    TearDownMoves(m, detail);
    Then(ch, m, TearDown(m, detail), {});
  }

  lemma TornDown(ch: Channel, d: Detail)
    requires ch.phase.Ready?
    ensures TearDown(ch, d).phase.Failed? && TearDown(ch, d).detail == d.Said()
  {
  }

  /** Bytes received: streams close, hooks run, the session may report failure. */
  lemma HeardMoves(ch: Channel, r: ReadOutcome)
    requires Core(ch) && ch.phase.Ready? && r.ReadBytes?
    ensures var m := Heard(ch, r);
            && Moves(ch, m, {}) && m.phase.Ready?
            && m == ch.(session := m.session, results := m.results, active := m.active)
            && m.session == Some(Receive(ch.session.value, r.now, r.len, r.signals, r.failure))
  {
    hide HearAll, HooksRun, AfterHooks, Agrees, Bounded, Calls, Closed;
    var s := ch.session.value;
    var read := if r.len > 0 then s.(lastRead := r.now) else s;
    ReadFacts(s, r);
    HooksMove(ch, Receive(s, r.now, r.len, r.signals, r.failure), HooksRun(read, r.signals));
  }

  lemma ReadFacts(s: Session, r: ReadOutcome)
    requires s.live && Agrees(s) && Bounded(s) && r.ReadBytes?
    ensures var read := if r.len > 0 then s.(lastRead := r.now) else s;
            var after := Receive(s, r.now, r.len, r.signals, r.failure);
            var hooks := HooksRun(read, r.signals);
            && after.live && Agrees(after) && Bounded(after)
            && Closed(hooks) <= Calls(s) && Calls(after) == Calls(s) - Closed(hooks)
  {
    hide HearAll, HooksRun, Closed;
    var read := if r.len > 0 then s.(lastRead := r.now) else s;
    assert Agrees(read) && Calls(read) == Calls(s);
    HooksAgree(read, r.signals);
    SignalsTouch(read, r.signals);
    StepBounded(Options(0, 0, true), s, Received(r.now, r.len, r.signals, r.failure));
    var h := HearAll(read, r.signals);
    var after := Receive(s, r.now, r.len, r.signals, r.failure);
    assert after.streams == h.streams && after.activeStreams == h.activeStreams;
    assert Calls(after) == Calls(h) && Agrees(after);
  }

  predicate DrainKeeps(ch: Channel, r: Channel) {
    && r.phase == ch.phase && r.pending == ch.pending && r.watch == ch.watch && r.detail == ch.detail
    && r.timers == ch.timers && r.connectTimer == ch.connectTimer && r.keepaliveTimer == ch.keepaliveTimer
  }

  lemma {:induction false} DrainMoves(ch: Channel, input: seq<ReadOutcome>)
    requires Core(ch) && ch.phase.Ready?
    ensures var r := DrainSocket(ch, input);
            && Moves(ch, r, {})
            && (r.phase.Failed? || (r.phase.Ready? && DrainKeeps(ch, r)))
    decreases |input|
  {
    hide Core, Moves, Heard, TearDown, Receive;
    Stays(ch);
    ReadyHasSession(ch);
    if input != [] {
      match input[0]
      case ReadBlocked =>
      case ReadEof => TearDownOn(ch, ch, Own(ClosedByServer));
      case ReadError(text) => TearDownOn(ch, ch, Own(SocketFailed(text)));
      case ReadBytes(now, len, signals, failure) =>
        var m := Heard(ch, input[0]);
        HeardMoves(ch, input[0]);
        CoreOf(ch, m);
        if failure.Some? {
          TearDownOn(ch, m, OfSession(Receive(ch.session.value, now, len, signals, failure).error));
        } else {
          DrainMoves(m, input[1..]);
          Then(ch, m, DrainSocket(m, input[1..]), {});
        }
    }
  }

  lemma RearmMoves(o: Config, ch: Channel, skew: nat, maxSkew: nat)
    requires Core(ch) && skew <= maxSkew
    ensures var r := Rearm(o, ch, skew);
            && Moves(ch, r, {})
            && r == ch.(timers := r.timers, keepaliveTimer := r.keepaliveTimer)
            && Armed(o, r, maxSkew) && Rearmed(o, r)
  {
    hide Linked, OnePlace, Timed, Known;
    var r := Rearm(o, ch, skew);
    if ch.phase == Ready {
      ReadyHasSession(ch);
      TimerOff(ch);
      var m := ch.(timers := Cancelled(ch.timers, ch.keepaliveTimer), keepaliveTimer := 0);
      var deadline := Deadline(o.keepalive, ch.session.value);
      if deadline.Some? { TimerOn(m, deadline.value + skew); }
      OnlyTimersChanged(ch, r);
    }
  }

  lemma TimerOff(ch: Channel)
    requires Timed(ch)
    ensures Timed(ch.(timers := Cancelled(ch.timers, ch.keepaliveTimer), keepaliveTimer := 0))
  {
    assert Cancelled(ch.timers, ch.keepaliveTimer).pending.Keys == ch.timers.pending.Keys - {ch.keepaliveTimer};
  }

  lemma TimerOn(ch: Channel, deadline: int)
    requires Timed(ch) && ch.keepaliveTimer == 0
    ensures Timed(ch.(timers := Added(ch.timers, deadline, KeepaliveCheck), keepaliveTimer := ch.timers.nextId))
  {
    assert Added(ch.timers, deadline, KeepaliveCheck).pending.Keys == ch.timers.pending.Keys + {ch.timers.nextId};
  }

  lemma OnlyTimersChanged(ch: Channel, r: Channel)
    requires r == ch.(timers := r.timers, keepaliveTimer := r.keepaliveTimer, connectTimer := r.connectTimer)
    ensures OnePlace(ch) ==> OnePlace(r)
    ensures Known(r) == Known(ch)
  {
  }

  // ------------------------------------------------------------ submitting

  lemma FailCallMoves(ch: Channel, c: CallId, reason: Reason)
    requires Core(ch) && c !in Known(ch)
    ensures var r := FailCall(ch, c, reason);
            && Moves(ch, r, {c}) && r == ch.(results := r.results)
            && c in r.results && r.results[c] == FailedWith(reason)
  {
    hide Linked;
  }

  /** The library picks ids it is not using. */
  ghost predicate FreshId(ch: Channel, id: int) {
    ch.phase.Ready? && ch.session.Some? && Accepts(ch.session.value, id) ==> id !in ch.session.value.streams
  }

  lemma SubmitMoves(ch: Channel, c: CallId, id: int)
    requires Core(ch) && ch.phase.Ready? && c !in Known(ch) && FreshId(ch, id)
    ensures var r := SubmitCall(ch, c, id);
            && Moves(ch, r, {c}) && FlushKeeps(ch, r)
            && (Accepts(ch.session.value, id) ==> c in r.active)
            && (!Accepts(ch.session.value, id) ==> r.active == ch.active && c in r.results
                                                   && r.results[c] == FailedWith(SessionFailed(r.session.value.error)))
  {
    hide Core, Moves, Known, Agrees, Bounded, Calls;
    LinkFacts(ch, c);
    var s := ch.session.value;
    var after := Submit(s, c, id);
    SubmitFacts(s, c, id);
    if Accepts(s, id) {
      AcceptedMoves(ch, after, c);
    } else {
      SwapSession(ch, after);
      var m := ch.(session := Some(after));
      CoreOf(ch, m);
      SameKnown(ch, m);
      FailCallMoves(m, c, SessionFailed(after.error));
      MovesOn(ch, m, SubmitCall(ch, c, id), {}, {c});
      assert {} + {c} == {c};
    }
  }

  lemma LinkFacts(ch: Channel, c: CallId)
    requires Core(ch) && ch.phase.Ready?
    ensures ch.session.Some? && Linked(ch.session.value, ch.active)
    ensures c !in Known(ch) ==> c !in Calls(ch.session.value)
  {
    hide Agrees, Bounded, Calls, OnePlace, Timed;
  }

  lemma SameKnown(ch: Channel, m: Channel)
    requires Moves(ch, m, {})
    ensures Known(m) == Known(ch)
  {
    hide Core;
  }

  lemma AcceptedMoves(ch: Channel, s: Session, c: CallId)
    requires Core(ch) && ch.phase.Ready? && c !in Known(ch)
    requires Linked(s, ch.active + {c})
    ensures Moves(ch, ch.(session := Some(s), active := ch.active + {c}), {c})
  {
    hide Linked;
  }

  lemma SubmitFacts(s: Session, c: CallId, id: int)
    requires s.live && Agrees(s) && Bounded(s) && c !in Calls(s)
    requires Accepts(s, id) ==> id !in s.streams
    ensures var r := Submit(s, c, id);
            && r.live && Agrees(r) && Bounded(r) && SameClock(s, r)
            && Calls(r) == if Accepts(s, id) then Calls(s) + {c} else Calls(s)
  {
    var r := Submit(s, c, id);
    if Accepts(s, id) {
      SubmitAgrees(s, c, id);
    } else {
      assert Calls(r) == Calls(s);
    }
  }

  /** The ids the library hands out one after another never repeat. */
  predicate DistinctIds(ids: seq<int>) { forall i, j :: 0 <= i < j < |ids| && ids[i] >= 0 ==> ids[i] != ids[j] }

  /** Every stream in the table was one of the first n submits. */
  ghost predicate StreamsFrom(s: Session, ids: seq<int>, n: nat) {
    forall id :: id in s.streams ==> exists k :: 0 <= k < n && k < |ids| && ids[k] == id
  }

  lemma {:induction false} SubmitAllMoves(ch: Channel, cs: seq<CallId>, ids: seq<int>)
    requires Core(ch) && ch.phase.Ready? && NoRepeats(cs) && DistinctIds(ids)
    requires forall c :: c in cs ==> c !in Known(ch)
    requires ch.session.value.streams == map[]
    ensures var r := SubmitAll(ch, cs, ids);
            && Moves(ch, r, Elements(cs)) && FlushKeeps(ch, r) && r.phase.Ready?
            && StreamsFrom(r.session.value, ids, |cs|)
    decreases |cs|
  {
    hide Core, Moves, SubmitCall, Known;
    if cs == [] {
      Stays(ch);
      assert Elements(cs) == {};
      ReadyHasSession(ch);
    } else {
      var last := |cs| - 1;
      var front, c := cs[..last], cs[last];
      assert forall x :: x in front ==> x in cs;
      SubmitAllMoves(ch, front, ids);
      var m := SubmitAll(ch, front, ids);
      var id := if last < |ids| then ids[last] else -1;
      assert c !in Elements(front);
      NewToIt(ch, m, Elements(front), c);
      CoreOf(ch, m);
      ReadyHasSession(m);
      assert FreshId(m, id);
      SubmitMoves(m, c, id);
      SubmitStreams(m, c, id, ids, last);
      MovesOn(ch, m, SubmitCall(m, c, id), Elements(front), {c});
      assert Elements(cs) == Elements(front) + {c} by { assert cs == front + [c]; }
    }
  }

  lemma NewToIt(ch: Channel, m: Channel, x: set<CallId>, c: CallId)
    requires Moves(ch, m, x) && c !in x && c !in Known(ch)
    ensures c !in Known(m)
  {
    hide Core;
  }

  lemma SubmitStreams(ch: Channel, c: CallId, id: int, ids: seq<int>, n: nat)
    requires ch.phase.Ready? && ch.session.Some? && StreamsFrom(ch.session.value, ids, n)
    requires id == if n < |ids| then ids[n] else -1
    ensures StreamsFrom(SubmitCall(ch, c, id).session.value, ids, n + 1)
  {
    var r := SubmitCall(ch, c, id).session.value;
    forall i | i in r.streams
      ensures exists k :: 0 <= k < n + 1 && k < |ids| && ids[k] == i
    {
      if i in ch.session.value.streams {
        var k :| 0 <= k < n && k < |ids| && ids[k] == i;
      } else {
        assert ids[n] == i;
      }
    }
  }
}
